/** The feature encoder: turns one property record into the numeric vector the
    trained regression model consumes. */
module Encoding {
  import opened Wrappers
  import opened Text

  /** One house's attributes as received in a request. The categorical fields are
      free text: the schema only demands that they be strings. */
  datatype PropertyRecord = PropertyRecord(
    area: real,
    bedrooms: int,
    bathrooms: int,
    stories: int,
    mainroad: string,
    guestroom: string,
    basement: string,
    hotwaterheating: string,
    airconditioning: string,
    parking: int,
    prefarea: string,
    furnishingstatus: string)

  /** The model's input: one number per record field, in a fixed order. */
  type FeatureVector = seq<real>

  const FeatureCount: nat := 12

  /** The table for the six yes/no fields. */
  const BinaryMapping: map<string, int> := map["yes" := 1, "no" := 0]

  /** The table for the furnishing status. */
  const FurnishingMapping: map<string, int> :=
    map["furnished" := 2, "semi-furnished" := 1, "unfurnished" := 0]

  /** Dictionary lookup with a fallback for a missing key (Python's dict.get). */
  function GetOr(m: map<string, int>, key: string, default: int): (v: int)
    ensures key in m ==> v == m[key]
    ensures key !in m ==> v == default
  {
    if key in m then m[key] else default
  }

  /** The code of a yes/no field: 1 exactly for a case variant of "yes", 0 for
      anything else, whether "no" or unrecognised. */
  function BinaryCode(s: string): (c: int)
    ensures c == 1 <==> Lower(s) == "yes"
    ensures c == 0 <==> Lower(s) != "yes"
  {
    GetOr(BinaryMapping, Lower(s), 0)
  }

  /** The code of the furnishing status: 2, 1 or 0 for the three known values,
      and 0 for anything unrecognised. */
  function FurnishingCode(s: string): (c: int)
    ensures c == 2 <==> Lower(s) == "furnished"
    ensures c == 1 <==> Lower(s) == "semi-furnished"
    ensures c == 0 <==> Lower(s) != "furnished" && Lower(s) != "semi-furnished"
  {
    GetOr(FurnishingMapping, Lower(s), 0)
  }

  /** The feature vector of a record. Categorical slots only ever hold their
      table's codes. */
  function Encode(r: PropertyRecord): (v: FeatureVector)
    ensures |v| == FeatureCount
    ensures forall k :: k in {4, 5, 6, 7, 8, 10} ==> v[k] == 0.0 || v[k] == 1.0
    ensures v[11] == 0.0 || v[11] == 1.0 || v[11] == 2.0
  {
    [ r.area,
      r.bedrooms as real,
      r.bathrooms as real,
      r.stories as real,
      BinaryCode(r.mainroad) as real,
      BinaryCode(r.guestroom) as real,
      BinaryCode(r.basement) as real,
      BinaryCode(r.hotwaterheating) as real,
      BinaryCode(r.airconditioning) as real,
      r.parking as real,
      BinaryCode(r.prefarea) as real,
      FurnishingCode(r.furnishingstatus) as real ]
  }

  /** The feature names the service publishes, in the order the model expects. */
  const FeatureNames: seq<string> :=
    ["area", "bedrooms", "bathrooms", "stories", "mainroad", "guestroom", "basement",
     "hotwaterheating", "airconditioning", "parking", "prefarea", "furnishingstatus"]

  /** The encoded value of the record field with the given name, looked up by name
      rather than by position; None for a name that is not a field. */
  function FieldValue(r: PropertyRecord, name: string): Option<real> {
    if name == "area" then Some(r.area)
    else if name == "bedrooms" then Some(r.bedrooms as real)
    else if name == "bathrooms" then Some(r.bathrooms as real)
    else if name == "stories" then Some(r.stories as real)
    else if name == "parking" then Some(r.parking as real)
    else if name == "mainroad" then Some(BinaryCode(r.mainroad) as real)
    else if name == "guestroom" then Some(BinaryCode(r.guestroom) as real)
    else if name == "basement" then Some(BinaryCode(r.basement) as real)
    else if name == "hotwaterheating" then Some(BinaryCode(r.hotwaterheating) as real)
    else if name == "airconditioning" then Some(BinaryCode(r.airconditioning) as real)
    else if name == "prefarea" then Some(BinaryCode(r.prefarea) as real)
    else if name == "furnishingstatus" then Some(FurnishingCode(r.furnishingstatus) as real)
    else None
  }

  /** The published feature names are distinct and name the encoder's slots one
      by one, in order. */
  lemma FeatureNamesMatchSlots(r: PropertyRecord)
    ensures |FeatureNames| == |Encode(r)|
    ensures forall i, j :: 0 <= i < j < |FeatureNames| ==> FeatureNames[i] != FeatureNames[j]
    ensures forall i :: 0 <= i < |FeatureNames| ==> FieldValue(r, FeatureNames[i]) == Some(Encode(r)[i])
  {
    var v := Encode(r);
    assert FieldValue(r, "area") == Some(v[0]);
    assert FieldValue(r, "bedrooms") == Some(v[1]);
    assert FieldValue(r, "bathrooms") == Some(v[2]);
    assert FieldValue(r, "stories") == Some(v[3]);
    assert FieldValue(r, "mainroad") == Some(v[4]);
    assert FieldValue(r, "guestroom") == Some(v[5]);
    assert FieldValue(r, "basement") == Some(v[6]);
    assert FieldValue(r, "hotwaterheating") == Some(v[7]);
    assert FieldValue(r, "airconditioning") == Some(v[8]);
    assert FieldValue(r, "parking") == Some(v[9]);
    assert FieldValue(r, "prefarea") == Some(v[10]);
    assert FieldValue(r, "furnishingstatus") == Some(v[11]);
  }

  /** The numeric fields are copied unchanged into slots 0-3 and 9. */
  lemma NumericFieldsPassThrough(r: PropertyRecord)
    ensures Encode(r)[0] == r.area
    ensures Encode(r)[1] == r.bedrooms as real && Encode(r)[2] == r.bathrooms as real
    ensures Encode(r)[3] == r.stories as real && Encode(r)[9] == r.parking as real
  {
  }

  /** An unrecognised yes/no value encodes exactly like "no". */
  lemma UnknownBinaryEncodesAsNo(s: string)
    requires Lower(s) !in BinaryMapping
    ensures BinaryCode(s) == BinaryCode("no") == 0
  {
  }

  /** An unrecognised furnishing status encodes exactly like "unfurnished". */
  lemma UnknownFurnishingEncodesAsUnfurnished(s: string)
    requires Lower(s) !in FurnishingMapping
    ensures FurnishingCode(s) == FurnishingCode("unfurnished") == 0
  {
  }

  /** Records that agree on their numbers. */
  predicate SameNumericFields(r1: PropertyRecord, r2: PropertyRecord) {
    r1.area == r2.area && r1.bedrooms == r2.bedrooms && r1.bathrooms == r2.bathrooms &&
    r1.stories == r2.stories && r1.parking == r2.parking
  }

  /** Records whose categorical fields differ at most in letter case. */
  predicate SameCategoriesIgnoringCase(r1: PropertyRecord, r2: PropertyRecord) {
    EqualIgnoringCase(r1.mainroad, r2.mainroad) &&
    EqualIgnoringCase(r1.guestroom, r2.guestroom) &&
    EqualIgnoringCase(r1.basement, r2.basement) &&
    EqualIgnoringCase(r1.hotwaterheating, r2.hotwaterheating) &&
    EqualIgnoringCase(r1.airconditioning, r2.airconditioning) &&
    EqualIgnoringCase(r1.prefarea, r2.prefarea) &&
    EqualIgnoringCase(r1.furnishingstatus, r2.furnishingstatus)
  }

  /** Encoding is case-insensitive: records differing only in the letter case of
      their categorical fields encode to the same vector. */
  lemma EncodeIgnoresCase(r1: PropertyRecord, r2: PropertyRecord)
    requires SameNumericFields(r1, r2)
    requires SameCategoriesIgnoringCase(r1, r2)
    ensures Encode(r1) == Encode(r2)
  {
    LowerEqualIff(r1.mainroad, r2.mainroad);
    LowerEqualIff(r1.guestroom, r2.guestroom);
    LowerEqualIff(r1.basement, r2.basement);
    LowerEqualIff(r1.hotwaterheating, r2.hotwaterheating);
    LowerEqualIff(r1.airconditioning, r2.airconditioning);
    LowerEqualIff(r1.prefarea, r2.prefarea);
    LowerEqualIff(r1.furnishingstatus, r2.furnishingstatus);
  }

  /** A sample listing and its encoding. */
  lemma SampleRecordEncoding()
    ensures Encode(PropertyRecord(7420.0, 4, 1, 3, "yes", "no", "no", "no", "yes", 2, "yes", "furnished"))
         == [7420.0, 4.0, 1.0, 3.0, 1.0, 0.0, 0.0, 0.0, 1.0, 2.0, 1.0, 2.0]
  {
    assert Lower("yes") == "yes" && Lower("no") == "no";
    assert Lower("furnished") == "furnished";
  }

  /** The same listing written with other spellings: case variants of "yes" count
      as yes, while "", "1" and "Yes " silently count as no. */
  lemma LenientSpellingsEncoding()
    ensures Encode(PropertyRecord(7420.0, 4, 1, 3, "YES", "", "1", "Yes ", "Yes", 2, "yEs", "FURNISHED"))
         == [7420.0, 4.0, 1.0, 3.0, 1.0, 0.0, 0.0, 0.0, 1.0, 2.0, 1.0, 2.0]
  {
    assert Lower("YES") == "yes" && Lower("Yes") == "yes" && Lower("yEs") == "yes";
    assert Lower("Yes ") != "yes" && Lower("1") != "yes" && Lower("") != "yes";
    assert Lower("FURNISHED") == "furnished";
    assert BinaryCode("YES") == BinaryCode("Yes") == BinaryCode("yEs") == 1;
    assert BinaryCode("") == BinaryCode("1") == BinaryCode("Yes ") == 0;
    assert FurnishingCode("FURNISHED") == 2;
  }
}
