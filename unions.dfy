/**
 * The two union response types of ais/response.go and their UnmarshalJSON
 * methods.  AisMultiple dispatches on an explicit "type" field; CombinedMultiple
 * has no tag and classifies a message by which keys it has.  Each decodes the
 * whole message into exactly one embedded variant.  A pointer-receiver method
 * that assigns fields is modelled as a function from the old receiver value to
 * the new one, together with the error it returns.
 */
module Unions {
  import opened Wrappers
  import opened Json

  /** The payload of one variant struct; its fields are not interpreted here. */
  datatype Record = Record(fields: map<string, Json>)

  /** A default-valued variant struct. */
  const Zero := Record(map[])

  /** The Go struct a json.Unmarshal call fills. */
  datatype Shape =
    | PositionShape | AtonShape | StaticdataShape
    | SimpleJsonShape | FullJsonShape | SimpleGeojsonShape | FullGeojsonShape

  /**
   * encoding/json as far as the dispatchers use it: parse checks the bytes and
   * yields the document; fill decodes the bytes into one variant struct, starting
   * from that struct's current contents (json.Unmarshal into an existing struct
   * keeps the fields the message does not mention).
   */
  datatype Codec = Codec(parse: Bytes -> Result<Json, DecodeError>, fill: (Shape, Record, Bytes) -> Result<Record, DecodeError>)

  /** A receiver after UnmarshalJSON, and the error the method returned. */
  datatype Decoded<T> = Decoded(value: T, error: Option<DecodeError>)

  /** The value of a receiver after a json.Unmarshal into it: the decoded value, or the error. */
  function AsResult<T>(d: Decoded<T>): (r: Result<T, DecodeError>)
    ensures r.Ok? <==> d.error.None?
    ensures r.Ok? ==> r.value == d.value
    ensures r.Err? ==> Some(r.error) == d.error
  {
    match d.error
    case None => Ok(d.value)
    case Some(e) => Err(e)
  }

  /** How encoding/json names a JSON value's kind in a type-mismatch error. */
  function KindOf(j: Json): string {
    match j
    case Null => "null"
    case Bool(_) => "bool"
    case Number(_) => "number"
    case String(_) => "string"
    case Array(_) => "array"
    case Object(_) => "object"
  }

  predicate HasKey(j: Json, k: string) {
    j.Object? && k in j.members
  }

  // ---------------------------------------------------------------- AisMultiple

  const PositionTag := "Position"
  const AtonTag := "Aton"
  const StaticdataTag := "Staticdata"

  /** The three AIS message variants, with the tag naming which one a message is. */
  datatype AisMultiple = AisMultiple(typ: string, position: Record, aton: Record, staticdata: Record)
  {
    function AsPosition(): Record { position }
    function AsAton(): Record { aton }
    function AsStaticdata(): Record { staticdata }

    /** The embedded struct a tag names; zero for a tag that names none. */
    function Variant(t: string): Record {
      if t == PositionTag then position
      else if t == AtonTag then aton
      else if t == StaticdataTag then staticdata
      else Zero
    }
  }

  const ZeroAis := AisMultiple("", Zero, Zero, Zero)

  /**
   * Decoding a document into struct { Type string `json:"type"` }: an object's
   * "type" string, "" when the key is missing or null, and "" for a null document.
   */
  function TypeField(j: Json): (r: Result<string, DecodeError>)
    ensures r.Err? <==> !(j.Null? || j.Object?) || (HasKey(j, "type") && !(j.members["type"].String? || j.members["type"].Null?))
    ensures r.Ok? && r.value != "" ==> HasKey(j, "type") && j.members["type"] == String(r.value)
    ensures HasKey(j, "type") && j.members["type"].String? ==> r == Ok(j.members["type"].s)
    ensures j.Null? || (j.Object? && (!HasKey(j, "type") || j.members["type"].Null?)) ==> r == Ok("")
  {
    match j
    case Null => Ok("")
    case Object(m) =>
      if "type" !in m then Ok("")
      else (match m["type"]
            case String(s) => Ok(s)
            case Null => Ok("")
            case other => Err(TypeMismatch(KindOf(other), "string")))
    case other => Err(TypeMismatch(KindOf(other), "struct"))
  }

  /** AisMultiple.UnmarshalJSON: read the tag, record it, then fill the variant it names. */
  function UnmarshalAis(a: AisMultiple, codec: Codec, data: Bytes): (d: Decoded<AisMultiple>)
    ensures d.error.None? ==> AisShape(d.value.typ).Some?
    ensures d.value.typ != a.typ ==> codec.parse(data).Ok? && TypeField(codec.parse(data).value) == Ok(d.value.typ)
  {
    match codec.parse(data)
    case Err(e) => Decoded(a, Some(e))
    case Ok(j) =>
      match TypeField(j)
      case Err(e) => Decoded(a, Some(e))
      case Ok(t) =>
        var tagged := a.(typ := t);
        if t == PositionTag then
          match codec.fill(PositionShape, a.position, data)
          case Ok(rec) => Decoded(tagged.(position := rec), None)
          case Err(e) => Decoded(tagged, Some(e))
        else if t == AtonTag then
          match codec.fill(AtonShape, a.aton, data)
          case Ok(rec) => Decoded(tagged.(aton := rec), None)
          case Err(e) => Decoded(tagged, Some(e))
        else if t == StaticdataTag then
          match codec.fill(StaticdataShape, a.staticdata, data)
          case Ok(rec) => Decoded(tagged.(staticdata := rec), None)
          case Err(e) => Decoded(tagged, Some(e))
        else Decoded(tagged, Some(UnknownType(t)))
  }

  /** The shape each known tag selects. */
  function AisShape(t: string): (s: Option<Shape>)
    ensures s.Some? <==> t in {PositionTag, AtonTag, StaticdataTag}
  {
    if t == PositionTag then Some(PositionShape)
    else if t == AtonTag then Some(AtonShape)
    else if t == StaticdataTag then Some(StaticdataShape)
    else None
  }

  /**
   * The tag is recorded before dispatch whenever it can be read, and a tag other
   * than the three known ones (the empty tag of a missing field included) is an
   * "unknown type" error that fills nothing.  A known tag whose fill succeeds
   * gives no error and exactly that variant replaced by the message decoded over
   * its old contents; one whose fill fails keeps the recorded tag and reports the
   * failure.  A message that cannot be read as a
   * document with a string tag is an error that leaves the receiver as it was.
   */
  lemma AisTagRecordedFirst(a: AisMultiple, codec: Codec, data: Bytes)
    ensures var d := UnmarshalAis(a, codec, data);
      && (codec.parse(data).Err? || TypeField(codec.parse(data).value).Err? ==> d.value == a && d.error.Some?)
      && (codec.parse(data).Ok? && TypeField(codec.parse(data).value).Ok? ==>
            var t := TypeField(codec.parse(data).value).value;
            && d.value.typ == t
            && (AisShape(t).None? ==> d == Decoded(a.(typ := t), Some(UnknownType(t))))
            && (AisShape(t).Some? && codec.fill(AisShape(t).value, a.Variant(t), data).Err? ==>
                  d == Decoded(a.(typ := t), Some(codec.fill(AisShape(t).value, a.Variant(t), data).error)))
            && (t == PositionTag && codec.fill(PositionShape, a.position, data).Ok? ==>
                  d == Decoded(a.(typ := t, position := codec.fill(PositionShape, a.position, data).value), None))
            && (t == AtonTag && codec.fill(AtonShape, a.aton, data).Ok? ==>
                  d == Decoded(a.(typ := t, aton := codec.fill(AtonShape, a.aton, data).value), None))
            && (t == StaticdataTag && codec.fill(StaticdataShape, a.staticdata, data).Ok? ==>
                  d == Decoded(a.(typ := t, staticdata := codec.fill(StaticdataShape, a.staticdata, data).value), None)))
  {
  }

  /** An object without a "type" key reads as the empty tag, which is unknown. */
  lemma AisMissingTagIsUnknown(a: AisMultiple, codec: Codec, data: Bytes)
    requires codec.parse(data).Ok? && codec.parse(data).value.Object?
    requires !HasKey(codec.parse(data).value, "type")
    ensures UnmarshalAis(a, codec, data) == Decoded(a.(typ := ""), Some(UnknownType("")))
  {
  }

  /** Only the variant the tag names is ever written; the other two keep their values. */
  lemma AisOnlyNamedVariantChanges(a: AisMultiple, codec: Codec, data: Bytes)
    ensures var d := UnmarshalAis(a, codec, data);
      && (d.value.typ != PositionTag ==> d.value.position == a.position)
      && (d.value.typ != AtonTag ==> d.value.aton == a.aton)
      && (d.value.typ != StaticdataTag ==> d.value.staticdata == a.staticdata)
  {
  }

  /** A message that decodes without error carries a known tag naming a filled variant. */
  lemma AisSuccessHasKnownTag(a: AisMultiple, codec: Codec, data: Bytes)
    requires UnmarshalAis(a, codec, data).error.None?
    ensures var d := UnmarshalAis(a, codec, data);
      && AisShape(d.value.typ).Some?
      && codec.parse(data).Ok?
      && HasKey(codec.parse(data).value, "type")
      && codec.parse(data).value.members["type"] == String(d.value.typ)
      && codec.fill(AisShape(d.value.typ).value, a.Variant(d.value.typ), data).Ok?
  {
  }

  /**
   * Decoded into a fresh value, as the stream pump does: the accessor for the
   * tagged variant returns the filled struct and the other accessors return zero.
   */
  lemma AisAccessorsAfterDecode(codec: Codec, data: Bytes)
    requires UnmarshalAis(ZeroAis, codec, data).error.None?
    ensures var a := UnmarshalAis(ZeroAis, codec, data).value;
      && (a.typ == PositionTag ==> a.AsPosition() == codec.fill(PositionShape, Zero, data).value && a.AsAton() == Zero && a.AsStaticdata() == Zero)
      && (a.typ == AtonTag ==> a.AsAton() == codec.fill(AtonShape, Zero, data).value && a.AsPosition() == Zero && a.AsStaticdata() == Zero)
      && (a.typ == StaticdataTag ==> a.AsStaticdata() == codec.fill(StaticdataShape, Zero, data).value && a.AsPosition() == Zero && a.AsAton() == Zero)
  {
    AisSuccessHasKnownTag(ZeroAis, codec, data);
  }

  /**
   * json.Unmarshal of a stream frame into a fresh AisMultiple: a frame it accepts
   * names one of the three variants.
   */
  function AisDecoder(codec: Codec): (decode: Decoder<AisMultiple>)
    ensures forall data :: decode(data).Ok? ==> AisShape(decode(data).value.typ).Some?
  {
    data => AsResult(UnmarshalAis(ZeroAis, codec, data))
  }

  // ----------------------------------------------------------- CombinedMultiple

  const SimpleJsonTag := "SimpleJson"
  const FullJsonTag := "FullJson"
  const SimpleGeojsonTag := "SimpleGeojson"
  const FullGeojsonTag := "FullGeojson"

  /** The four formats a combined message can have. */
  datatype CombinedKind = SimpleJson | FullJson | SimpleGeojson | FullGeojson
  {
    function Tag(): string {
      match this
      case SimpleJson => SimpleJsonTag
      case FullJson => FullJsonTag
      case SimpleGeojson => SimpleGeojsonTag
      case FullGeojson => FullGeojsonTag
    }

    function Shape(): Shape {
      match this
      case SimpleJson => SimpleJsonShape
      case FullJson => FullJsonShape
      case SimpleGeojson => SimpleGeojsonShape
      case FullGeojson => FullGeojsonShape
    }
  }

  /** The four combined variants, with the tag naming which one a message is. */
  datatype CombinedMultiple = CombinedMultiple(typ: string, simpleJson: Record, fullJson: Record, simpleGeojson: Record, fullGeojson: Record)
  {
    function AsSimpleJson(): Record { simpleJson }
    function AsFullJson(): Record { fullJson }
    function AsSimpleGeojson(): Record { simpleGeojson }
    function AsFullGeojson(): Record { fullGeojson }

    /** The variant of the given kind. */
    function Variant(k: CombinedKind): Record {
      match k
      case SimpleJson => simpleJson
      case FullJson => fullJson
      case SimpleGeojson => simpleGeojson
      case FullGeojson => fullGeojson
    }

    /** This value with the variant of the given kind replaced. */
    function WithVariant(k: CombinedKind, rec: Record): (c: CombinedMultiple)
      ensures c.typ == typ && c.Variant(k) == rec
      ensures forall other :: other != k ==> c.Variant(other) == Variant(other)
    {
      match k
      case SimpleJson => this.(simpleJson := rec)
      case FullJson => this.(fullJson := rec)
      case SimpleGeojson => this.(simpleGeojson := rec)
      case FullGeojson => this.(fullGeojson := rec)
    }
  }

  const ZeroCombined := CombinedMultiple("", Zero, Zero, Zero, Zero)

  /** Decoding a document into map[string]json.RawMessage: an object's members, none for null. */
  function KeysOf(j: Json): (r: Result<map<string, Json>, DecodeError>)
    ensures r.Ok? <==> j.Object? || j.Null?
    ensures r.Ok? ==> forall k :: k in r.value <==> HasKey(j, k)
  {
    match j
    case Object(m) => Ok(m)
    case Null => Ok(map[])
    case other => Err(TypeMismatch(KindOf(other), "map[string]json.RawMessage"))
  }

  /** The two key-presence probes: "properties" means GeoJSON, "eta" (inside "properties" for GeoJSON) means full. */
  function Classify(j: Json): (r: Result<CombinedKind, DecodeError>)
    ensures r.Ok? ==> ((r.value == SimpleGeojson || r.value == FullGeojson) <==> HasKey(j, "properties"))
  {
    match KeysOf(j)
    case Err(e) => Err(e)
    case Ok(keys) =>
      if "properties" in keys then
        match KeysOf(keys["properties"])
        case Err(e) => Err(e)
        case Ok(props) => Ok(if "eta" in props then FullGeojson else SimpleGeojson)
      else Ok(if "eta" in keys then FullJson else SimpleJson)
  }

  /**
   * The classification table.  A JSON null, at the top or as "properties", reads as
   * an object without keys; any other non-object at either level is an error.
   */
  lemma ClassifyTable(j: Json)
    ensures Classify(j).Err? <==>
              !(j.Object? || j.Null?)
              || (HasKey(j, "properties") && !(j.members["properties"].Object? || j.members["properties"].Null?))
    ensures Classify(j) == Ok(FullGeojson) <==>
              HasKey(j, "properties") && HasKey(j.members["properties"], "eta")
    ensures Classify(j) == Ok(SimpleGeojson) <==>
              HasKey(j, "properties") && !HasKey(j.members["properties"], "eta")
              && (j.members["properties"].Object? || j.members["properties"].Null?)
    ensures Classify(j) == Ok(FullJson) <==> !HasKey(j, "properties") && HasKey(j, "eta")
    ensures Classify(j) == Ok(SimpleJson) <==>
              (j.Null? || (j.Object? && !HasKey(j, "properties") && !HasKey(j, "eta")))
  {
  }

  /** The keys of an object, and none for null; nothing for any other value. */
  function KeySet(j: Json): Option<set<string>> {
    match j
    case Object(m) => Some(m.Keys)
    case Null => Some({})
    case _ => None
  }

  /**
   * Classification depends only on which keys are present, never on their values:
   * two documents with the same keys, and the same keys under "properties", are
   * both rejected or both given the same kind.
   */
  lemma ClassifyIgnoresValues(j: Json, k: Json)
    requires KeySet(j) == KeySet(k)
    requires HasKey(j, "properties") ==> KeySet(j.members["properties"]) == KeySet(k.members["properties"])
    ensures Classify(j).Ok? == Classify(k).Ok?
    ensures Classify(j).Ok? ==> Classify(j).value == Classify(k).value
  {
    if HasKey(j, "properties") {
      assert HasKey(k, "properties");
    }
  }

  /** CombinedMultiple.UnmarshalJSON: classify, record the kind's tag, then fill that variant. */
  function UnmarshalCombined(c: CombinedMultiple, codec: Codec, data: Bytes): (d: Decoded<CombinedMultiple>)
    ensures d.error.None? ==>
              && codec.parse(data).Ok? && Classify(codec.parse(data).value).Ok?
              && d.value.typ == Classify(codec.parse(data).value).value.Tag()
  {
    match codec.parse(data)
    case Err(e) => Decoded(c, Some(e))
    case Ok(j) =>
      match Classify(j)
      case Err(e) => Decoded(c, Some(e))
      case Ok(kind) =>
        var tagged := c.(typ := kind.Tag());
        match codec.fill(kind.Shape(), c.Variant(kind), data)
        case Ok(rec) => Decoded(tagged.WithVariant(kind, rec), None)
        case Err(e) => Decoded(tagged, Some(e))
  }

  /**
   * A classifiable message records its kind's tag and fills exactly that variant
   * by decoding the whole message over its current contents; the other three
   * variants keep their values.  A message
   * that cannot be read or classified leaves the receiver as it was.
   */
  lemma CombinedDispatch(c: CombinedMultiple, codec: Codec, data: Bytes)
    ensures var d := UnmarshalCombined(c, codec, data);
      && (codec.parse(data).Err? ==> d == Decoded(c, Some(codec.parse(data).error)))
      && (codec.parse(data).Ok? && Classify(codec.parse(data).value).Err? ==>
            d == Decoded(c, Some(Classify(codec.parse(data).value).error)))
      && (codec.parse(data).Ok? && Classify(codec.parse(data).value).Ok? ==>
            var kind := Classify(codec.parse(data).value).value;
            var fill := codec.fill(kind.Shape(), c.Variant(kind), data);
            && d.value.typ == kind.Tag()
            && (forall other :: other != kind ==> d.value.Variant(other) == c.Variant(other))
            && (fill.Ok? ==> d.error.None? && d.value.Variant(kind) == fill.value)
            && (fill.Err? ==> d == Decoded(c.(typ := kind.Tag()), Some(fill.error))))
  {
  }

  /**
   * Decoded into a fresh value, as the stream pump does: the tag names the kind the
   * probes found, its accessor returns the filled struct, and the other three
   * accessors return zero.
   */
  lemma CombinedAccessorsAfterDecode(codec: Codec, data: Bytes)
    requires UnmarshalCombined(ZeroCombined, codec, data).error.None?
    ensures codec.parse(data).Ok? && Classify(codec.parse(data).value).Ok?
    ensures var c := UnmarshalCombined(ZeroCombined, codec, data).value;
            var kind := Classify(codec.parse(data).value).value;
      && c.typ == kind.Tag()
      && c.Variant(kind) == codec.fill(kind.Shape(), Zero, data).value
      && (forall other :: other != kind ==> c.Variant(other) == Zero)
      && (kind == SimpleJson ==> c.AsFullJson() == Zero && c.AsSimpleGeojson() == Zero && c.AsFullGeojson() == Zero)
      && (kind == FullJson ==> c.AsSimpleJson() == Zero && c.AsSimpleGeojson() == Zero && c.AsFullGeojson() == Zero)
      && (kind == SimpleGeojson ==> c.AsSimpleJson() == Zero && c.AsFullJson() == Zero && c.AsFullGeojson() == Zero)
      && (kind == FullGeojson ==> c.AsSimpleJson() == Zero && c.AsFullJson() == Zero && c.AsSimpleGeojson() == Zero)
  {
    CombinedDispatch(ZeroCombined, codec, data);
  }

  /**
   * json.Unmarshal of a stream frame into a fresh CombinedMultiple: a frame it
   * accepts is a readable document whose tag is the kind the key probes find.
   */
  function CombinedDecoder(codec: Codec): (decode: Decoder<CombinedMultiple>)
    ensures forall data :: decode(data).Ok? ==>
      && codec.parse(data).Ok?
      && Classify(codec.parse(data).value).Ok?
      && decode(data).value.typ == Classify(codec.parse(data).value).value.Tag()
  {
    data => AsResult(UnmarshalCombined(ZeroCombined, codec, data))
  }
}
