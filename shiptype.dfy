/**
 * Ship and cargo type codes of AIS messages (shiptype/shiptype.go): the 100
 * codes 0..99 as consecutive constants, and their descriptions.
 */
module ShipTypes {
  import opened Wrappers

  /** A ship type code; Go's int, so any integer can be asked for a description. */
  type ShipType = int

  const NotAvailable: ShipType := 0
  const ReservedForFutureUse1: ShipType := 1
  const ReservedForFutureUse2: ShipType := 2
  const ReservedForFutureUse3: ShipType := 3
  const ReservedForFutureUse4: ShipType := 4
  const ReservedForFutureUse5: ShipType := 5
  const ReservedForFutureUse6: ShipType := 6
  const ReservedForFutureUse7: ShipType := 7
  const ReservedForFutureUse8: ShipType := 8
  const ReservedForFutureUse9: ShipType := 9
  const ReservedForFutureUse10: ShipType := 10
  const ReservedForFutureUse11: ShipType := 11
  const ReservedForFutureUse12: ShipType := 12
  const ReservedForFutureUse13: ShipType := 13
  const ReservedForFutureUse14: ShipType := 14
  const ReservedForFutureUse15: ShipType := 15
  const ReservedForFutureUse16: ShipType := 16
  const ReservedForFutureUse17: ShipType := 17
  const ReservedForFutureUse18: ShipType := 18
  const ReservedForFutureUse19: ShipType := 19
  const WingInGroundAllShips: ShipType := 20
  const WingInGroundHazardousCategoryA: ShipType := 21
  const WingInGroundHazardousCategoryB: ShipType := 22
  const WingInGroundHazardousCategoryC: ShipType := 23
  const WingInGroundHazardousCategoryD: ShipType := 24
  const WingInGroundReservedForFutureUse1: ShipType := 25
  const WingInGroundReservedForFutureUse2: ShipType := 26
  const WingInGroundReservedForFutureUse3: ShipType := 27
  const WingInGroundReservedForFutureUse4: ShipType := 28
  const WingInGroundReservedForFutureUse5: ShipType := 29
  const Fishing: ShipType := 30
  const Towing: ShipType := 31
  const TowingLengthExceeds200MOrBreadthExceeds25M: ShipType := 32
  const DredgingOrUnderwaterOps: ShipType := 33
  const DivingOps: ShipType := 34
  const MilitaryOps: ShipType := 35
  const Sailing: ShipType := 36
  const PleasureCraft: ShipType := 37
  const Reserved1: ShipType := 38
  const Reserved2: ShipType := 39
  const HighSpeedCraftAllShips: ShipType := 40
  const HighSpeedCraftHazardousCategoryA: ShipType := 41
  const HighSpeedCraftHazardousCategoryB: ShipType := 42
  const HighSpeedCraftHazardousCategoryC: ShipType := 43
  const HighSpeedCraftHazardousCategoryD: ShipType := 44
  const HighSpeedCraftReservedForFutureUse1: ShipType := 45
  const HighSpeedCraftReservedForFutureUse2: ShipType := 46
  const HighSpeedCraftReservedForFutureUse3: ShipType := 47
  const HighSpeedCraftReservedForFutureUse4: ShipType := 48
  const HighSpeedCraftNoAdditionalInformation: ShipType := 49
  const PilotVessel: ShipType := 50
  const SearchAndRescueVessel: ShipType := 51
  const Tug: ShipType := 52
  const PortTender: ShipType := 53
  const AntiPollutionEquipment: ShipType := 54
  const LawEnforcement: ShipType := 55
  const SpareLocalVessel1: ShipType := 56
  const SpareLocalVessel2: ShipType := 57
  const MedicalTransport: ShipType := 58
  const NoncombatantShip: ShipType := 59
  const PassengerAllShips: ShipType := 60
  const PassengerHazardousCategoryA: ShipType := 61
  const PassengerHazardousCategoryB: ShipType := 62
  const PassengerHazardousCategoryC: ShipType := 63
  const PassengerHazardousCategoryD: ShipType := 64
  const PassengerReservedForFutureUse1: ShipType := 65
  const PassengerReservedForFutureUse2: ShipType := 66
  const PassengerReservedForFutureUse3: ShipType := 67
  const PassengerReservedForFutureUse4: ShipType := 68
  const PassengerNoAdditionalInformation: ShipType := 69
  const CargoAllShips: ShipType := 70
  const CargoHazardousCategoryA: ShipType := 71
  const CargoHazardousCategoryB: ShipType := 72
  const CargoHazardousCategoryC: ShipType := 73
  const CargoHazardousCategoryD: ShipType := 74
  const CargoReservedForFutureUse1: ShipType := 75
  const CargoReservedForFutureUse2: ShipType := 76
  const CargoReservedForFutureUse3: ShipType := 77
  const CargoReservedForFutureUse4: ShipType := 78
  const CargoNoAdditionalInformation: ShipType := 79
  const TankerAllShips: ShipType := 80
  const TankerHazardousCategoryA: ShipType := 81
  const TankerHazardousCategoryB: ShipType := 82
  const TankerHazardousCategoryC: ShipType := 83
  const TankerHazardousCategoryD: ShipType := 84
  const TankerReservedForFutureUse1: ShipType := 85
  const TankerReservedForFutureUse2: ShipType := 86
  const TankerReservedForFutureUse3: ShipType := 87
  const TankerReservedForFutureUse4: ShipType := 88
  const TankerNoAdditionalInformation: ShipType := 89
  const OtherTypeAllShips: ShipType := 90
  const OtherTypeHazardousCategoryA: ShipType := 91
  const OtherTypeHazardousCategoryB: ShipType := 92
  const OtherTypeHazardousCategoryC: ShipType := 93
  const OtherTypeHazardousCategoryD: ShipType := 94
  const OtherTypeReservedForFutureUse1: ShipType := 95
  const OtherTypeReservedForFutureUse2: ShipType := 96
  const OtherTypeReservedForFutureUse3: ShipType := 97
  const OtherTypeReservedForFutureUse4: ShipType := 98
  const OtherTypeNoAdditionalInformation: ShipType := 99

  /** The text for any code outside 0..99. */
  const OutOfBounds := "ERROR: Ship type out of bounds"

  /**
   * The description of a ship type code; codes outside 0..99 get the out-of-bounds
   * text.  The switch's cases are grouped by the code's tens digit; codes 1..19
   * share the text the fallthrough chain ends in.
   */
  function Description(s: ShipType): (desc: string)
  {
    if s < 0 || 99 < s then OutOfBounds
    else match s / 10
      case 0 => if s == 0 then "Not available (default)" else "Reserved for future use"
      case 1 => "Reserved for future use"
      case 2 =>
        (match s
         case 20 => "Wing in ground (WIG), all ships of this type"
         case 21 => "Wing in ground (WIG), Hazardous category A"
         case 22 => "Wing in ground (WIG), Hazardous category B"
         case 23 => "Wing in ground (WIG), Hazardous category C"
         case 24 => "Wing in ground (WIG), Hazardous category D"
         case 25 => "Wing in ground (WIG), Reserved for future use"
         case 26 => "Wing in ground (WIG), Reserved for future use"
         case 27 => "Wing in ground (WIG), Reserved for future use"
         case 28 => "Wing in ground (WIG), Reserved for future use"
         case 29 => "Wing in ground (WIG), Reserved for future use")
      case 3 =>
        (match s
         case 30 => "Fishing"
         case 31 => "Towing"
         case 32 => "Towing: length exceeds 200m or breadth exceeds 25m"
         case 33 => "Dredging or underwater ops"
         case 34 => "Diving ops"
         case 35 => "Military ops"
         case 36 => "Sailing"
         case 37 => "Pleasure Craft"
         case 38 => "Reserved"
         case 39 => "Reserved")
      case 4 =>
        (match s
         case 40 => "High speed craft (HSC), all ships of this type"
         case 41 => "High speed craft (HSC), Hazardous category A"
         case 42 => "High speed craft (HSC), Hazardous category B"
         case 43 => "High speed craft (HSC), Hazardous category C"
         case 44 => "High speed craft (HSC), Hazardous category D"
         case 45 => "High speed craft (HSC), Reserved for future use"
         case 46 => "High speed craft (HSC), Reserved for future use"
         case 47 => "High speed craft (HSC), Reserved for future use"
         case 48 => "High speed craft (HSC), Reserved for future use"
         case 49 => "High speed craft (HSC), No additional information")
      case 5 =>
        (match s
         case 50 => "Pilot AISOutput"
         case 51 => "Search and Rescue vessel"
         case 52 => "Tug"
         case 53 => "Port Tender"
         case 54 => "Anti-pollution equipment"
         case 55 => "Law Enforcement"
         case 56 => "Spare - Local AISOutput"
         case 57 => "Spare - Local AISOutput"
         case 58 => "Medical Transport"
         case 59 => "Noncombatant ship according to RR Resolution No. 18")
      case 6 =>
        (match s
         case 60 => "Passenger, all ships of this type"
         case 61 => "Passenger, Hazardous category A"
         case 62 => "Passenger, Hazardous category B"
         case 63 => "Passenger, Hazardous category C"
         case 64 => "Passenger, Hazardous category D"
         case 65 => "Passenger, Reserved for future use"
         case 66 => "Passenger, Reserved for future use"
         case 67 => "Passenger, Reserved for future use"
         case 68 => "Passenger, Reserved for future use"
         case 69 => "Passenger, No additional information")
      case 7 =>
        (match s
         case 70 => "Cargo, all ships of this type"
         case 71 => "Cargo, Hazardous category A"
         case 72 => "Cargo, Hazardous category B"
         case 73 => "Cargo, Hazardous category C"
         case 74 => "Cargo, Hazardous category D"
         case 75 => "Cargo, Reserved for future use"
         case 76 => "Cargo, Reserved for future use"
         case 77 => "Cargo, Reserved for future use"
         case 78 => "Cargo, Reserved for future use"
         case 79 => "Cargo, No additional information")
      case 8 =>
        (match s
         case 80 => "Tanker, all ships of this type"
         case 81 => "Tanker, Hazardous category A"
         case 82 => "jTanker, Hazardous category B"
         case 83 => "Tanker, Hazardous category C"
         case 84 => "Tanker, Hazardous category D"
         case 85 => "Tanker, Reserved for future use"
         case 86 => "Tanker, Reserved for future use"
         case 87 => "Tanker, Reserved for future use"
         case 88 => "Tanker, Reserved for future use"
         case 89 => "Tanker, No additional information")
      case 9 =>
        (match s
         case 90 => "Other Type, all ships of this type"
         case 91 => "Other Type, Hazardous category A"
         case 92 => "Other Type, Hazardous category B"
         case 93 => "Other Type, Hazardous category C"
         case 94 => "Other Type, Hazardous category D"
         case 95 => "Other Type, Reserved for future use"
         case 96 => "Other Type, Reserved for future use"
         case 97 => "Other Type, Reserved for future use"
         case 98 => "Other Type, Reserved for future use"
         case 99 => "Other Type, no additional information")
  }

  /** Code 0 is "not available", the default. */
  /** The constants count up from 0 in declaration order, one per code. */
  /** The constants of each decade of codes (the codes s with s / 10 == d), in declaration order. */
  const Decade0: seq<ShipType> := [NotAvailable, ReservedForFutureUse1, ReservedForFutureUse2, ReservedForFutureUse3, ReservedForFutureUse4, ReservedForFutureUse5, ReservedForFutureUse6, ReservedForFutureUse7, ReservedForFutureUse8, ReservedForFutureUse9]
  const Decade1: seq<ShipType> := [ReservedForFutureUse10, ReservedForFutureUse11, ReservedForFutureUse12, ReservedForFutureUse13, ReservedForFutureUse14, ReservedForFutureUse15, ReservedForFutureUse16, ReservedForFutureUse17, ReservedForFutureUse18, ReservedForFutureUse19]
  const Decade2: seq<ShipType> := [WingInGroundAllShips, WingInGroundHazardousCategoryA, WingInGroundHazardousCategoryB, WingInGroundHazardousCategoryC, WingInGroundHazardousCategoryD, WingInGroundReservedForFutureUse1, WingInGroundReservedForFutureUse2, WingInGroundReservedForFutureUse3, WingInGroundReservedForFutureUse4, WingInGroundReservedForFutureUse5]
  const Decade3: seq<ShipType> := [Fishing, Towing, TowingLengthExceeds200MOrBreadthExceeds25M, DredgingOrUnderwaterOps, DivingOps, MilitaryOps, Sailing, PleasureCraft, Reserved1, Reserved2]
  const Decade4: seq<ShipType> := [HighSpeedCraftAllShips, HighSpeedCraftHazardousCategoryA, HighSpeedCraftHazardousCategoryB, HighSpeedCraftHazardousCategoryC, HighSpeedCraftHazardousCategoryD, HighSpeedCraftReservedForFutureUse1, HighSpeedCraftReservedForFutureUse2, HighSpeedCraftReservedForFutureUse3, HighSpeedCraftReservedForFutureUse4, HighSpeedCraftNoAdditionalInformation]
  const Decade5: seq<ShipType> := [PilotVessel, SearchAndRescueVessel, Tug, PortTender, AntiPollutionEquipment, LawEnforcement, SpareLocalVessel1, SpareLocalVessel2, MedicalTransport, NoncombatantShip]
  const Decade6: seq<ShipType> := [PassengerAllShips, PassengerHazardousCategoryA, PassengerHazardousCategoryB, PassengerHazardousCategoryC, PassengerHazardousCategoryD, PassengerReservedForFutureUse1, PassengerReservedForFutureUse2, PassengerReservedForFutureUse3, PassengerReservedForFutureUse4, PassengerNoAdditionalInformation]
  const Decade7: seq<ShipType> := [CargoAllShips, CargoHazardousCategoryA, CargoHazardousCategoryB, CargoHazardousCategoryC, CargoHazardousCategoryD, CargoReservedForFutureUse1, CargoReservedForFutureUse2, CargoReservedForFutureUse3, CargoReservedForFutureUse4, CargoNoAdditionalInformation]
  const Decade8: seq<ShipType> := [TankerAllShips, TankerHazardousCategoryA, TankerHazardousCategoryB, TankerHazardousCategoryC, TankerHazardousCategoryD, TankerReservedForFutureUse1, TankerReservedForFutureUse2, TankerReservedForFutureUse3, TankerReservedForFutureUse4, TankerNoAdditionalInformation]
  const Decade9: seq<ShipType> := [OtherTypeAllShips, OtherTypeHazardousCategoryA, OtherTypeHazardousCategoryB, OtherTypeHazardousCategoryC, OtherTypeHazardousCategoryD, OtherTypeReservedForFutureUse1, OtherTypeReservedForFutureUse2, OtherTypeReservedForFutureUse3, OtherTypeReservedForFutureUse4, OtherTypeNoAdditionalInformation]

  /** All hundred constants in the order they are declared. */
  const AllShipTypes: seq<ShipType> :=
    Decade0 + Decade1 + Decade2 + Decade3 + Decade4 + Decade5 + Decade6 + Decade7 + Decade8 + Decade9

  /** Declaration order is code order: the i-th constant declared has the value i. */
  lemma ConstantsAreConsecutive()
    ensures |AllShipTypes| == 100
    ensures forall i :: 0 <= i < 100 ==> AllShipTypes[i] == i
  {
    assert forall j :: 0 <= j < 10 ==> Decade0[j] == 0 + j;
    assert forall j :: 0 <= j < 10 ==> Decade1[j] == 10 + j;
    assert forall j :: 0 <= j < 10 ==> Decade2[j] == 20 + j;
    assert forall j :: 0 <= j < 10 ==> Decade3[j] == 30 + j;
    assert forall j :: 0 <= j < 10 ==> Decade4[j] == 40 + j;
    assert forall j :: 0 <= j < 10 ==> Decade5[j] == 50 + j;
    assert forall j :: 0 <= j < 10 ==> Decade6[j] == 60 + j;
    assert forall j :: 0 <= j < 10 ==> Decade7[j] == 70 + j;
    assert forall j :: 0 <= j < 10 ==> Decade8[j] == 80 + j;
    assert forall j :: 0 <= j < 10 ==> Decade9[j] == 90 + j;
  }

  lemma NotAvailableIsDefault()
    ensures Description(NotAvailable) == "Not available (default)"
  {
  }

  /** Codes 1..19 all fall through to one shared text. */
  lemma ReservedRangeSharesText(s: ShipType)
    requires 1 <= s <= 19
    ensures Description(s) == "Reserved for future use"
  {
  }

  /**
   * Exactly the codes outside 0..99 are described as out of bounds: every code in
   * range has a text of its own.
   */
  lemma OutOfBoundsExactly(s: ShipType)
    ensures Description(s) == OutOfBounds <==> s < 0 || 99 < s
  {
    if 0 <= s < 25 { InRange0(s); }
    else if 25 <= s < 50 { InRange1(s); }
    else if 50 <= s < 75 { InRange2(s); }
    else if 75 <= s < 100 { InRange3(s); }
    else { OutsideRange(s); }
  }

  lemma OutsideRange(s: ShipType)
    requires s < 0 || 99 < s
    ensures Description(s) == OutOfBounds
  {
  }

  lemma InRange0(s: ShipType)
    requires 0 <= s < 25
    ensures Description(s) != OutOfBounds
  {
  }

  lemma InRange1(s: ShipType)
    requires 25 <= s < 50
    ensures Description(s) != OutOfBounds
  {
  }

  lemma InRange2(s: ShipType)
    requires 50 <= s < 75
    ensures Description(s) != OutOfBounds
  {
  }

  lemma InRange3(s: ShipType)
    requires 75 <= s < 100
    ensures Description(s) != OutOfBounds
  {
  }

  /**
   * In each category with hazard sub-codes, the four reserved sub-codes 5..8 share
   * one text, the category's "Reserved for future use".
   */
  lemma ReservedSubCodesShareText(s: ShipType)
    requires s / 10 in {2, 4, 6, 7, 8, 9} && 5 <= s % 10 <= 8
    ensures Description(s) == ReservedText(s / 10)
  {
    if s < 70 { ReservedSubCodesBelow70(s); } else { ReservedSubCodesFrom70(s); }
  }

  lemma ReservedSubCodesBelow70(s: ShipType)
    requires s / 10 in {2, 4, 6} && 5 <= s % 10 <= 8
    ensures Description(s) == ReservedText(s / 10)
  {
  }

  lemma ReservedSubCodesFrom70(s: ShipType)
    requires s / 10 in {7, 8, 9} && 5 <= s % 10 <= 8
    ensures Description(s) == ReservedText(s / 10)
  {
  }

  /** Code 29, where other categories say "no additional information", shares the WIG reserved text. */
  lemma WingInGroundLastCodeIsReserved()
    ensures Description(WingInGroundReservedForFutureUse5) == ReservedText(2)
  {
  }

  /** The reserved text of each category with hazard sub-codes. */
  function ReservedText(tens: int): string {
    match tens
    case 2 => "Wing in ground (WIG), Reserved for future use"
    case 4 => "High speed craft (HSC), Reserved for future use"
    case 6 => "Passenger, Reserved for future use"
    case 7 => "Cargo, Reserved for future use"
    case 8 => "Tanker, Reserved for future use"
    case 9 => "Other Type, Reserved for future use"
    case _ => ""
  }

  /** Code 82 carries a stray leading "j", kept as written. */
  lemma TankerCategoryBText()
    ensures Description(TankerHazardousCategoryB) == "jTanker, Hazardous category B"
    ensures Description(TankerHazardousCategoryB) != "Tanker, Hazardous category B"
  {
  }

  /** Code 99 spells its sub-code in lower case, unlike 49, 69, 79 and 89. */
  lemma OtherTypeLastText()
    ensures Description(OtherTypeNoAdditionalInformation) == "Other Type, no additional information"
  {
  }

  /** Code 50 carries "AISOutput" where "vessel" would be, kept as written. */
  lemma PilotVesselText()
    ensures Description(PilotVessel) == "Pilot AISOutput"
  {
  }

  /** Codes 56 and 57 share one text, with the same "AISOutput" oddity. */
  lemma SpareLocalVesselText()
    ensures Description(SpareLocalVessel1) == Description(SpareLocalVessel2) == "Spare - Local AISOutput"
  {
  }
}
