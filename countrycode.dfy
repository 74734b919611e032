/**
 * Country codes of AIS position reports (countrycode/countrycode.go): the
 * declared code constants and the table that names a code's country.
 */
module CountryCodes {
  import opened Wrappers

  /** A country code; any string converts to one, so any string can be looked up. */
  type CountryCode = string

  const Afghanistan: CountryCode := "AF"
  const Albania: CountryCode := "AL"
  const Algeria: CountryCode := "DZ"
  const AmericanSamoa: CountryCode := "AS"
  const Andorra: CountryCode := "AD"
  const Angola: CountryCode := "AO"
  const Anguilla: CountryCode := "AI"
  const Antarctica: CountryCode := "AQ"
  const AntiguaBarbuda: CountryCode := "AG"
  const Argentina: CountryCode := "AR"
  const Armenia: CountryCode := "AM"
  const Aruba: CountryCode := "AW"
  const AscensionIs: CountryCode := "IO"
  const Australia: CountryCode := "AU"
  const Austria: CountryCode := "AT"
  const Azerbaijan: CountryCode := "AZ"
  const Bahamas: CountryCode := "BS"
  const Bahrain: CountryCode := "BH"
  const Bangladesh: CountryCode := "BD"
  const Barbados: CountryCode := "BB"
  const Belarus: CountryCode := "BY"
  const Belgium: CountryCode := "BE"
  const Belize: CountryCode := "BZ"
  const Benin: CountryCode := "BJ"
  const Bermuda: CountryCode := "BM"
  const Bhutan: CountryCode := "BT"
  const Bolivia: CountryCode := "BO"
  const BosniaAndHerzegovina: CountryCode := "BA"
  const Botswana: CountryCode := "BW"
  const Brazil: CountryCode := "BR"
  const BritishVirginIs: CountryCode := "VG"
  const Brunei: CountryCode := "BN"
  const Bulgaria: CountryCode := "BG"
  const BurkinaFaso: CountryCode := "BF"
  const Burundi: CountryCode := "BI"
  const Cambodia: CountryCode := "KH"
  const Cameroon: CountryCode := "CM"
  const Canada: CountryCode := "CA"
  const CapeVerde: CountryCode := "CV"
  const CaymanIs: CountryCode := "KY"
  const CenAfrRep: CountryCode := "CF"
  const Chad: CountryCode := "TD"
  const Chile: CountryCode := "CL"
  const China: CountryCode := "CN"
  const ChristmasIs: CountryCode := "CX"
  const CocosIs: CountryCode := "CC"
  const Colombia: CountryCode := "CO"
  const Comoros: CountryCode := "KM"
  const Congo: CountryCode := "CG"
  const CookIs: CountryCode := "CK"
  const CostaRica: CountryCode := "CR"
  const Croatia: CountryCode := "HR"
  const Cuba: CountryCode := "CU"
  const Curacao: CountryCode := "CW"
  const Cyprus: CountryCode := "CY"
  const CzechRepublic: CountryCode := "CZ"
  const DPRKorea: CountryCode := "KP"
  const DRCongo: CountryCode := "CD"
  const Denmark: CountryCode := "DK"
  const Djibouti: CountryCode := "DJ"
  const Dominica: CountryCode := "DM"
  const DominicanRep: CountryCode := "DO"
  const Ecuador: CountryCode := "EC"
  const Egypt: CountryCode := "EG"
  const ElSalvador: CountryCode := "SV"
  const EquGuinea: CountryCode := "GQ"
  const Eritrea: CountryCode := "ER"
  const Estonia: CountryCode := "EE"
  const Ethiopia: CountryCode := "ET"
  const FYRMacedonia: CountryCode := "MK"
  const FaroeIs: CountryCode := "FO"
  const Fiji: CountryCode := "FJ"
  const Finland: CountryCode := "FI"
  const France: CountryCode := "FR"
  const FrenchPolynesia: CountryCode := "PF"
  const Gabon: CountryCode := "GA"
  const Gambia: CountryCode := "GM"
  const Georgia: CountryCode := "GE"
  const Germany: CountryCode := "DE"
  const Ghana: CountryCode := "GH"
  const Gibraltar: CountryCode := "GI"
  const Greece: CountryCode := "GR"
  const Greenland: CountryCode := "GL"
  const Grenada: CountryCode := "GD"
  const Guadeloupe: CountryCode := "GP"
  const Guatemala: CountryCode := "GT"
  const Guiana: CountryCode := "GF"
  const Guinea: CountryCode := "GN"
  const GuineaBissau: CountryCode := "GW"
  const Guyana: CountryCode := "GY"
  const Haiti: CountryCode := "HT"
  const Honduras: CountryCode := "HN"
  const HongKong: CountryCode := "HK"
  const Hungary: CountryCode := "HU"
  const Iceland: CountryCode := "IS"
  const India: CountryCode := "IN"
  const Indonesia: CountryCode := "ID"
  const Iran: CountryCode := "IR"
  const Iraq: CountryCode := "IQ"
  const Ireland: CountryCode := "IE"
  const Israel: CountryCode := "IL"
  const Italy: CountryCode := "IT"
  const IvoryCoast: CountryCode := "CI"
  const Jamaica: CountryCode := "JM"
  const Japan: CountryCode := "JP"
  const Jordan: CountryCode := "JO"
  const Kazakhstan: CountryCode := "KZ"
  const Kenya: CountryCode := "KE"
  const Kiribati: CountryCode := "KI"
  const Korea: CountryCode := "KR"
  const Kuwait: CountryCode := "KW"
  const KyrgyzRepublic: CountryCode := "KG"
  const Laos: CountryCode := "LA"
  const Latvia: CountryCode := "LV"
  const Lebanon: CountryCode := "LB"
  const Lesotho: CountryCode := "LS"
  const Liberia: CountryCode := "LR"
  const Libya: CountryCode := "LY"
  const Liechtenstein: CountryCode := "LI"
  const Lithuania: CountryCode := "LT"
  const Luxembourg: CountryCode := "LU"
  const Macao: CountryCode := "MO"
  const Madagascar: CountryCode := "MG"
  const Malawi: CountryCode := "MW"
  const Malaysia: CountryCode := "MY"
  const Maldives: CountryCode := "MV"
  const Mali: CountryCode := "ML"
  const Malta: CountryCode := "MT"
  const MarshallIs: CountryCode := "MH"
  const Martinique: CountryCode := "MQ"
  const Mauritania: CountryCode := "MR"
  const Mauritius: CountryCode := "MU"
  const Mexico: CountryCode := "MX"
  const Micronesia: CountryCode := "FM"
  const Moldova: CountryCode := "MD"
  const Monaco: CountryCode := "MC"
  const Mongolia: CountryCode := "MN"
  const Montenegro: CountryCode := "ME"
  const Montserrat: CountryCode := "MS"
  const Morocco: CountryCode := "MA"
  const Mozambique: CountryCode := "MZ"
  const Myanmar: CountryCode := "MM"
  const NMarianaIs: CountryCode := "MP"
  const Namibia: CountryCode := "NA"
  const Nauru: CountryCode := "NR"
  const Nepal: CountryCode := "NP"
  const Netherlands: CountryCode := "NL"
  const NewCaledonia: CountryCode := "NC"
  const NewZealand: CountryCode := "NZ"
  const Nicaragua: CountryCode := "NI"
  const Niger: CountryCode := "NE"
  const Nigeria: CountryCode := "NG"
  const Niue: CountryCode := "NU"
  const Norway: CountryCode := "NO"
  const Oman: CountryCode := "OM"
  const Pakistan: CountryCode := "PK"
  const Palau: CountryCode := "PW"
  const Palestine: CountryCode := "PS"
  const Panama: CountryCode := "PA"
  const PapuaNewGuinea: CountryCode := "PG"
  const Paraguay: CountryCode := "PY"
  const Peru: CountryCode := "PE"
  const Philippines: CountryCode := "PH"
  const PitcairnIs: CountryCode := "PN"
  const Poland: CountryCode := "PL"
  const Portugal: CountryCode := "PT"
  const PuertoRico: CountryCode := "PR"
  const Qatar: CountryCode := "QA"
  const Reunion: CountryCode := "RE"
  const Romania: CountryCode := "RO"
  const Russia: CountryCode := "RU"
  const Rwanda: CountryCode := "RW"
  const Samoa: CountryCode := "WS"
  const SanMarino: CountryCode := "SM"
  const SaoTomePrincipe: CountryCode := "ST"
  const SaudiArabia: CountryCode := "SA"
  const Senegal: CountryCode := "SN"
  const Serbia: CountryCode := "RS"
  const Seychelles: CountryCode := "SC"
  const SierraLeone: CountryCode := "SL"
  const Singapore: CountryCode := "SG"
  const Slovakia: CountryCode := "SK"
  const Slovenia: CountryCode := "SI"
  const SolomonIs: CountryCode := "SB"
  const Somalia: CountryCode := "SO"
  const SouthAfrica: CountryCode := "ZA"
  const Spain: CountryCode := "ES"
  const SriLanka: CountryCode := "LK"
  const StHelena: CountryCode := "SH"
  const StKittsNevis: CountryCode := "KN"
  const StLucia: CountryCode := "LC"
  const StPaulAmsterdamIs: CountryCode := "TF"
  const StPierreMiquelon: CountryCode := "PM"
  const StVincentGrenadines: CountryCode := "VC"
  const Sudan: CountryCode := "SD"
  const Suriname: CountryCode := "SR"
  const Swaziland: CountryCode := "SZ"
  const Sweden: CountryCode := "SE"
  const Switzerland: CountryCode := "CH"
  const Syria: CountryCode := "SY"
  const Taiwan: CountryCode := "TW"
  const Tajikistan: CountryCode := "TJ"
  const Tanzania: CountryCode := "TZ"
  const Thailand: CountryCode := "TH"
  const Togo: CountryCode := "TG"
  const Tonga: CountryCode := "TO"
  const TrinidadTobago: CountryCode := "TT"
  const Tunisia: CountryCode := "TN"
  const Turkey: CountryCode := "TR"
  const Turkmenistan: CountryCode := "TM"
  const TurksCaicosIs: CountryCode := "TC"
  const Tuvalu: CountryCode := "TV"
  const UAE: CountryCode := "AE"
  const UK: CountryCode := "UK"
  const USA: CountryCode := "US"
  const USVirginIs: CountryCode := "VI"
  const Uganda: CountryCode := "UG"
  const Ukraine: CountryCode := "UA"
  const UnitedKingdom: CountryCode := "GB"
  const Uruguay: CountryCode := "UY"
  const Uzbekistan: CountryCode := "UZ"
  const Vanuatu: CountryCode := "VU"
  const Vatican: CountryCode := "VA"
  const Venezuela: CountryCode := "VE"
  const Vietnam: CountryCode := "VN"
  const WallisFutunaIs: CountryCode := "WF"
  const Yemen: CountryCode := "YE"
  const Zambia: CountryCode := "ZM"
  const Zimbabwe: CountryCode := "ZW"

  /** The name of every code the table has no case for. */
  const Unknown := "Unknown"

  /**
   * The cases of the lookup table: the name the table gives a code, or None when
   * no case matches.  The cases are grouped by the code's first letter and keep
   * their order within each group.
   */
  function CaseName(code: CountryCode): Option<string> {
    if |code| != 2 then None
    else match code[0]
      case 'A' =>
        (match code[1]
         case 'F' => Some("Afghanistan")
         case 'L' => Some("Albania")
         case 'S' => Some("American Samoa")
         case 'D' => Some("Andorra")
         case 'O' => Some("Angola")
         case 'I' => Some("Anguilla")
         case 'Q' => Some("Antarctica")
         case 'G' => Some("Antigua and Barbuda")
         case 'R' => Some("Argentina")
         case 'M' => Some("Armenia")
         case 'W' => Some("Aruba")
         case 'U' => Some("Australia")
         case 'T' => Some("Austria")
         case 'Z' => Some("Azerbaijan")
         case 'E' => Some("United Arab Emirates")
         case _ => None)
      case 'B' =>
        (match code[1]
         case 'S' => Some("Bahamas")
         case 'H' => Some("Bahrain")
         case 'D' => Some("Bangladesh")
         case 'B' => Some("Barbados")
         case 'Y' => Some("Belarus")
         case 'E' => Some("Belgium")
         case 'Z' => Some("Belize")
         case 'J' => Some("Benin")
         case 'M' => Some("Bermuda")
         case 'T' => Some("Bhutan")
         case 'O' => Some("Bolivia")
         case 'A' => Some("Bosnia and Herzegovina")
         case 'W' => Some("Botswana")
         case 'R' => Some("Brazil")
         case 'N' => Some("Brunei")
         case 'G' => Some("Bulgaria")
         case 'F' => Some("Burkina Faso")
         case 'I' => Some("Burundi")
         case _ => None)
      case 'C' =>
        (match code[1]
         case 'M' => Some("Cameroon")
         case 'A' => Some("Canada")
         case 'V' => Some("Cape Verde")
         case 'F' => Some("Central African Republic")
         case 'L' => Some("Chile")
         case 'N' => Some("China")
         case 'X' => Some("Christmas Islands")
         case 'C' => Some("Cocos Islands")
         case 'O' => Some("Colombia")
         case 'G' => Some("Congo")
         case 'K' => Some("Cook Islands")
         case 'R' => Some("Costa Rica")
         case 'U' => Some("Cuba")
         case 'W' => Some("Curacao")
         case 'Y' => Some("Cyprus")
         case 'Z' => Some("Czech Republic")
         case 'D' => Some("DR Congo")
         case 'I' => Some("IvoryCoast")
         case 'H' => Some("Switzerland")
         case _ => None)
      case 'D' =>
        (match code[1]
         case 'Z' => Some("Algeria")
         case 'K' => Some("Denmark")
         case 'J' => Some("Djibouti")
         case 'M' => Some("Dominica")
         case 'O' => Some("Dominican Republic")
         case 'E' => Some("Germany")
         case _ => None)
      case 'E' =>
        (match code[1]
         case 'C' => Some("Ecuador")
         case 'G' => Some("Egypt")
         case 'R' => Some("Eritrea")
         case 'E' => Some("Estonia")
         case 'T' => Some("Ethiopia")
         case 'S' => Some("Spain")
         case _ => None)
      case 'F' =>
        (match code[1]
         case 'O' => Some("Faroe Islands")
         case 'J' => Some("Fiji")
         case 'I' => Some("Finland")
         case 'R' => Some("France")
         case 'M' => Some("Micronesia")
         case _ => None)
      case 'G' =>
        (match code[1]
         case 'Q' => Some("Equatorial Guinea")
         case 'A' => Some("Gabon")
         case 'M' => Some("Gambia")
         case 'E' => Some("Georgia")
         case 'H' => Some("Ghana")
         case 'I' => Some("Gibraltar")
         case 'R' => Some("Greece")
         case 'L' => Some("Greenland")
         case 'D' => Some("Grenada")
         case 'P' => Some("Guadeloupe")
         case 'T' => Some("Guatemala")
         case 'F' => Some("Guiana")
         case 'N' => Some("Guinea")
         case 'W' => Some("Guinea Bissau")
         case 'Y' => Some("Guyana")
         case 'B' => Some("United Kingdom")
         case _ => None)
      case 'H' =>
        (match code[1]
         case 'R' => Some("Croatia")
         case 'T' => Some("Haiti")
         case 'N' => Some("Honduras")
         case 'K' => Some("Hong Kong")
         case 'U' => Some("Hungary")
         case _ => None)
      case 'I' =>
        (match code[1]
         case 'O' => Some("AscensionIs")
         case 'S' => Some("Iceland")
         case 'N' => Some("India")
         case 'D' => Some("Indonesia")
         case 'R' => Some("Iran")
         case 'Q' => Some("Iraq")
         case 'E' => Some("Ireland")
         case 'L' => Some("Israel")
         case 'T' => Some("Italy")
         case _ => None)
      case 'J' =>
        (match code[1]
         case 'M' => Some("Jamaica")
         case 'P' => Some("Japan")
         case 'O' => Some("Jordan")
         case _ => None)
      case 'K' =>
        (match code[1]
         case 'H' => Some("Cambodia")
         case 'Y' => Some("Cayman Islands")
         case 'M' => Some("Comoros")
         case 'P' => Some("DPR Korea")
         case 'Z' => Some("Kazakhstan")
         case 'E' => Some("Kenya")
         case 'I' => Some("Kiribati")
         case 'R' => Some("Korea")
         case 'W' => Some("Kuwait")
         case 'G' => Some("Kyrgyz Republic")
         case 'N' => Some("St. Kitts and Nevis")
         case _ => None)
      case 'L' =>
        (match code[1]
         case 'A' => Some("Laos")
         case 'V' => Some("Latvia")
         case 'B' => Some("Lebanon")
         case 'S' => Some("Lesotho")
         case 'R' => Some("Liberia")
         case 'Y' => Some("Libya")
         case 'I' => Some("Liechtenstein")
         case 'T' => Some("Lithuania")
         case 'U' => Some("Luxembourg")
         case 'K' => Some("SriLanka")
         case 'C' => Some("St. Lucia")
         case _ => None)
      case 'M' =>
        (match code[1]
         case 'K' => Some("FYR Macedonia")
         case 'O' => Some("Macao")
         case 'G' => Some("Madagascar")
         case 'W' => Some("Malawi")
         case 'Y' => Some("Malaysia")
         case 'V' => Some("Maldives")
         case 'L' => Some("Mali")
         case 'T' => Some("Malta")
         case 'H' => Some("MarshallIs")
         case 'Q' => Some("Martinique")
         case 'R' => Some("Mauritania")
         case 'U' => Some("Mauritius")
         case 'X' => Some("Mexico")
         case 'D' => Some("Moldova")
         case 'C' => Some("Monaco")
         case 'N' => Some("Mongolia")
         case 'E' => Some("Montenegro")
         case 'S' => Some("Montserrat")
         case 'A' => Some("Morocco")
         case 'Z' => Some("Mozambique")
         case 'M' => Some("Myanmar")
         case 'P' => Some("NMarianaIs")
         case _ => None)
      case 'N' =>
        (match code[1]
         case 'A' => Some("Namibia")
         case 'R' => Some("Nauru")
         case 'P' => Some("Nepal")
         case 'L' => Some("Netherlands")
         case 'C' => Some("NewCaledonia")
         case 'Z' => Some("NewZealand")
         case 'I' => Some("Nicaragua")
         case 'E' => Some("Niger")
         case 'G' => Some("Nigeria")
         case 'U' => Some("Niue")
         case 'O' => Some("Norway")
         case _ => None)
      case 'O' =>
        (match code[1]
         case 'M' => Some("Oman")
         case _ => None)
      case 'P' =>
        (match code[1]
         case 'F' => Some("French Polynesia")
         case 'K' => Some("Pakistan")
         case 'W' => Some("Palau")
         case 'S' => Some("Palestine")
         case 'A' => Some("Panama")
         case 'G' => Some("Papua New Guinea")
         case 'Y' => Some("Paraguay")
         case 'E' => Some("Peru")
         case 'H' => Some("Philippines")
         case 'N' => Some("Pitcairn Islands")
         case 'L' => Some("Poland")
         case 'T' => Some("Portugal")
         case 'R' => Some("Puerto Rico")
         case 'M' => Some("St. Pierre Miquelon")
         case _ => None)
      case 'Q' =>
        (match code[1]
         case 'A' => Some("Qatar")
         case _ => None)
      case 'R' =>
        (match code[1]
         case 'E' => Some("Reunion")
         case 'O' => Some("Romania")
         case 'U' => Some("Russia")
         case 'W' => Some("Rwanda")
         case 'S' => Some("Serbia")
         case _ => None)
      case 'S' =>
        (match code[1]
         case 'V' => Some("El Salvador")
         case 'M' => Some("San Marino")
         case 'T' => Some("Sao Tome and Principe")
         case 'A' => Some("SaudiArabia")
         case 'N' => Some("Senegal")
         case 'C' => Some("Seychelles")
         case 'L' => Some("SierraLeone")
         case 'G' => Some("Singapore")
         case 'K' => Some("Slovakia")
         case 'I' => Some("Slovenia")
         case 'B' => Some("SolomonIs")
         case 'O' => Some("Somalia")
         case 'H' => Some("StHelena")
         case 'D' => Some("Sudan")
         case 'R' => Some("Suriname")
         case 'Z' => Some("Swaziland")
         case 'E' => Some("Sweden")
         case 'Y' => Some("Syria")
         case _ => None)
      case 'T' =>
        (match code[1]
         case 'D' => Some("Chad")
         case 'F' => Some("St. Paul Amsterdam Island")
         case 'W' => Some("Taiwan")
         case 'J' => Some("Tajikistan")
         case 'Z' => Some("Tanzania")
         case 'H' => Some("Thailand")
         case 'G' => Some("Togo")
         case 'O' => Some("Tonga")
         case 'T' => Some("Trinidad and Tobago")
         case 'N' => Some("Tunisia")
         case 'R' => Some("Turkey")
         case 'M' => Some("Turkmenistan")
         case 'C' => Some("Turks and Caicos Islands")
         case 'V' => Some("Tuvalu")
         case _ => None)
      case 'U' =>
        (match code[1]
         case 'K' => Some("United Kingdom")
         case 'S' => Some("United States of America")
         case 'G' => Some("Uganda")
         case 'A' => Some("Ukraine")
         case 'Y' => Some("Uruguay")
         case 'Z' => Some("Uzbekistan")
         case _ => None)
      case 'V' =>
        (match code[1]
         case 'G' => Some("British Virgin Islands")
         case 'C' => Some("St. Vincent and the Grenadines")
         case 'I' => Some("US Virgin Islands")
         case 'U' => Some("Vanuatu")
         case 'A' => Some("Vatican")
         case 'E' => Some("Venezuela")
         case 'N' => Some("Vietnam")
         case _ => None)
      case 'W' =>
        (match code[1]
         case 'S' => Some("Samoa")
         case 'F' => Some("Wallis and Futuna Islands")
         case _ => None)
      case 'Y' =>
        (match code[1]
         case 'E' => Some("Yemen")
         case _ => None)
      case 'Z' =>
        (match code[1]
         case 'A' => Some("South Africa")
         case 'M' => Some("Zambia")
         case 'W' => Some("Zimbabwe")
         case _ => None)
      case _ => None
  }

  /** The country name of a code, and "Unknown" for every code without a case. */
  function ToCountryName(code: CountryCode): (name: string)
    ensures name == Unknown <==> CaseName(code).None?
    ensures |code| != 2 ==> name == Unknown
  {
    match CaseName(code)
    case Some(n) => n
    case None => Unknown
  }

  const Declared0: set<CountryCode> := {Afghanistan, Albania, Algeria, AmericanSamoa, Andorra, Angola, Anguilla, Antarctica, AntiguaBarbuda, Argentina, Armenia, Aruba, AscensionIs, Australia, Austria, Azerbaijan, Bahamas, Bahrain, Bangladesh, Barbados}
  const Declared1: set<CountryCode> := {Belarus, Belgium, Belize, Benin, Bermuda, Bhutan, Bolivia, BosniaAndHerzegovina, Botswana, Brazil, BritishVirginIs, Brunei, Bulgaria, BurkinaFaso, Burundi, Cambodia, Cameroon, Canada, CapeVerde, CaymanIs}
  const Declared2: set<CountryCode> := {CenAfrRep, Chad, Chile, China, ChristmasIs, CocosIs, Colombia, Comoros, Congo, CookIs, CostaRica, Croatia, Cuba, Curacao, Cyprus, CzechRepublic, DPRKorea, DRCongo, Denmark, Djibouti}
  const Declared3: set<CountryCode> := {Dominica, DominicanRep, Ecuador, Egypt, ElSalvador, EquGuinea, Eritrea, Estonia, Ethiopia, FYRMacedonia, FaroeIs, Fiji, Finland, France, FrenchPolynesia, Gabon, Gambia, Georgia, Germany, Ghana}
  const Declared4: set<CountryCode> := {Gibraltar, Greece, Greenland, Grenada, Guadeloupe, Guatemala, Guiana, Guinea, GuineaBissau, Guyana, Haiti, Honduras, HongKong, Hungary, Iceland, India, Indonesia, Iran, Iraq, Ireland}
  const Declared5: set<CountryCode> := {Israel, Italy, IvoryCoast, Jamaica, Japan, Jordan, Kazakhstan, Kenya, Kiribati, Korea, Kuwait, KyrgyzRepublic, Laos, Latvia, Lebanon, Lesotho, Liberia, Libya, Liechtenstein, Lithuania}
  const Declared6: set<CountryCode> := {Luxembourg, Macao, Madagascar, Malawi, Malaysia, Maldives, Mali, Malta, MarshallIs, Martinique, Mauritania, Mauritius, Mexico, Micronesia, Moldova, Monaco, Mongolia, Montenegro, Montserrat, Morocco}
  const Declared7: set<CountryCode> := {Mozambique, Myanmar, NMarianaIs, Namibia, Nauru, Nepal, Netherlands, NewCaledonia, NewZealand, Nicaragua, Niger, Nigeria, Niue, Norway, Oman, Pakistan, Palau, Palestine, Panama, PapuaNewGuinea}
  const Declared8: set<CountryCode> := {Paraguay, Peru, Philippines, PitcairnIs, Poland, Portugal, PuertoRico, Qatar, Reunion, Romania, Russia, Rwanda, Samoa, SanMarino, SaoTomePrincipe, SaudiArabia, Senegal, Serbia, Seychelles, SierraLeone}
  const Declared9: set<CountryCode> := {Singapore, Slovakia, Slovenia, SolomonIs, Somalia, SouthAfrica, Spain, SriLanka, StHelena, StKittsNevis, StLucia, StPaulAmsterdamIs, StPierreMiquelon, StVincentGrenadines, Sudan, Suriname, Swaziland, Sweden, Switzerland, Syria}
  const Declared10: set<CountryCode> := {Taiwan, Tajikistan, Tanzania, Thailand, Togo, Tonga, TrinidadTobago, Tunisia, Turkey, Turkmenistan, TurksCaicosIs, Tuvalu, UAE, UK, USA, USVirginIs, Uganda, Ukraine, UnitedKingdom, Uruguay}
  const Declared11: set<CountryCode> := {Uzbekistan, Vanuatu, Vatican, Venezuela, Vietnam, WallisFutunaIs, Yemen, Zambia, Zimbabwe}

  /** Every code declared as a constant. */
  const Declared: set<CountryCode> := DeclaredFirstHalf + DeclaredSecondHalf

  const DeclaredFirstHalf: set<CountryCode> := Declared0 + Declared1 + Declared2 + Declared3 + Declared4 + Declared5
  const DeclaredSecondHalf: set<CountryCode> := Declared6 + Declared7 + Declared8 + Declared9 + Declared10 + Declared11

  /** Every declared code has a case in the table, so its name is not "Unknown". */
  lemma DeclaredCodeHasName(c: CountryCode)
    requires c in Declared
    ensures CaseName(c).Some? && ToCountryName(c) != Unknown
  {
    if c in DeclaredFirstHalf { FirstHalfHasCases(); } else { SecondHalfHasCases(); }
  }

  lemma FirstHalfHasCases()
    ensures forall c :: c in DeclaredFirstHalf ==> CaseName(c).Some?
  {
    DeclaredHaveCases0();
    DeclaredHaveCases1();
    DeclaredHaveCases2();
    DeclaredHaveCases3();
    DeclaredHaveCases4();
    DeclaredHaveCases5();
  }

  lemma SecondHalfHasCases()
    ensures forall c :: c in DeclaredSecondHalf ==> CaseName(c).Some?
  {
    DeclaredHaveCases6();
    DeclaredHaveCases7();
    DeclaredHaveCases8();
    DeclaredHaveCases9();
    DeclaredHaveCases10();
    DeclaredHaveCases11();
  }

  lemma DeclaredHaveCases0()
    ensures forall c :: c in Declared0 ==> CaseName(c).Some?
  {
  }

  lemma DeclaredHaveCases1()
    ensures forall c :: c in Declared1 ==> CaseName(c).Some?
  {
  }

  lemma DeclaredHaveCases2()
    ensures forall c :: c in Declared2 ==> CaseName(c).Some?
  {
  }

  lemma DeclaredHaveCases3()
    ensures forall c :: c in Declared3 ==> CaseName(c).Some?
  {
  }

  lemma DeclaredHaveCases4()
    ensures forall c :: c in Declared4 ==> CaseName(c).Some?
  {
  }

  lemma DeclaredHaveCases5()
    ensures forall c :: c in Declared5 ==> CaseName(c).Some?
  {
  }

  lemma DeclaredHaveCases6()
    ensures forall c :: c in Declared6 ==> CaseName(c).Some?
  {
  }

  lemma DeclaredHaveCases7()
    ensures forall c :: c in Declared7 ==> CaseName(c).Some?
  {
  }

  lemma DeclaredHaveCases8()
    ensures forall c :: c in Declared8 ==> CaseName(c).Some?
  {
  }

  lemma DeclaredHaveCases9()
    ensures forall c :: c in Declared9 ==> CaseName(c).Some?
  {
  }

  lemma DeclaredHaveCases10()
    ensures forall c :: c in Declared10 ==> CaseName(c).Some?
  {
  }

  lemma DeclaredHaveCases11()
    ensures forall c :: c in Declared11 ==> CaseName(c).Some?
  {
  }

  /** The table is not injective: the codes UK and GB both name the United Kingdom. */
  lemma UnitedKingdomHasTwoCodes()
    ensures UK != UnitedKingdom
    ensures ToCountryName(UK) == ToCountryName(UnitedKingdom) == "United Kingdom"
  {
  }

  /** Names are kept as written, including those that differ from their constant's spelling. */
  lemma NamesAsWritten()
    ensures ToCountryName(Norway) == "Norway"
    ensures ToCountryName(USA) == "United States of America"
    ensures ToCountryName(AscensionIs) == "AscensionIs"
    ensures ToCountryName(SaudiArabia) == "SaudiArabia"
  {
  }

  /** Lookup is exact: lower case, unassigned and malformed codes are all unknown. */
  lemma UnlistedCodesAreUnknown()
    ensures ToCountryName("no") == Unknown
    ensures ToCountryName("XX") == Unknown
    ensures ToCountryName("") == Unknown
    ensures ToCountryName("NOR") == Unknown
  {
  }
}
