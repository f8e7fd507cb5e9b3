/** EQ bands and their JSON form (eqprofiles/bands.go). */
module Bands {
  import opened Options

  /** A decoded JSON value, as far as the bands codec looks into it. */
  datatype Json = JNull | JInt(n: int) | JOther | JObject(fields: map<string, Json>)

  datatype Bands = Bands(subBass: int, bass: int, mid: int, treble: int, presence: int)

  datatype BandsError =
    | NotAnObject
    | UnknownField(key: string)
    | MissingField(key: string)
    | NotAnInteger

  datatype Decoded = Parsed(bands: Bands) | Rejected(error: BandsError)

  const BAND_KEYS: seq<string> := ["subBass", "bass", "mid", "treble", "presence"]

  predicate IsBandKey(k: string) {
    k == "subBass" || k == "bass" || k == "mid" || k == "treble" || k == "presence"
  }

  lemma BandKeys(k: string)
    ensures k in BAND_KEYS <==> IsBandKey(k)
  {
    if k in BAND_KEYS {
      var i :| 0 <= i < 5 && k == BAND_KEYS[i];
      assert i == 0 || i == 1 || i == 2 || i == 3 || i == 4;
    }
    assert BAND_KEYS[0] == "subBass" && BAND_KEYS[1] == "bass" && BAND_KEYS[2] == "mid";
    assert BAND_KEYS[3] == "treble" && BAND_KEYS[4] == "presence";
  }

  /** Go's int. */
  predicate Int64(n: int) {
    -0x8000_0000_0000_0000 <= n < 0x8000_0000_0000_0000
  }

  /** What encoding/json accepts for an int field: a null leaves the zero value in place. */
  predicate IntegerLike(j: Json) {
    j.JNull? || (j.JInt? && Int64(j.n))
  }

  function IntValue(j: Json): int {
    if j.JInt? then j.n else 0
  }

  function BandsToJSON(b: Bands): Json {
    JObject(map["subBass" := JInt(b.subBass), "bass" := JInt(b.bass), "mid" := JInt(b.mid),
                "treble" := JInt(b.treble), "presence" := JInt(b.presence)])
  }

  /** The reference decoder: exactly the five keys, each an integer or null. */
  function BandsFromJSON(j: Json): Option<Bands> {
    if j.JObject? && FieldsOf(j.fields) && (forall k | k in j.fields :: IntegerLike(j.fields[k])) then
      Some(Bands(IntValue(j.fields["subBass"]), IntValue(j.fields["bass"]), IntValue(j.fields["mid"]),
                 IntValue(j.fields["treble"]), IntValue(j.fields["presence"])))
    else
      None
  }

  predicate FieldsOf(raw: map<string, Json>) {
    && "subBass" in raw && "bass" in raw && "mid" in raw && "treble" in raw && "presence" in raw
    && (forall k | k in raw :: IsBandKey(k))
  }

  predicate BandsFitInt64(b: Bands) {
    Int64(b.subBass) && Int64(b.bass) && Int64(b.mid) && Int64(b.treble) && Int64(b.presence)
  }

  predicate InRange(b: Bands) {
    && -12 <= b.subBass <= 12 && -12 <= b.bass <= 12 && -12 <= b.mid <= 12
    && -12 <= b.treble <= 12 && -12 <= b.presence <= 12
  }

  /** The stored column of every profile: decodable, and inside -12..12. */
  predicate GoodStoredBands(j: Json) {
    var d := BandsFromJSON(j);
    d.Some? && InRange(d.value)
  }

  /** Encoding then decoding any Go Bands value gives it back. */
  lemma BandsRoundTrip(b: Bands)
    requires BandsFitInt64(b)
    ensures BandsFromJSON(BandsToJSON(b)) == Some(b)
    ensures InRange(b) ==> GoodStoredBands(BandsToJSON(b))
  {
    var f := BandsToJSON(b).fields;
    assert f["subBass"] == JInt(b.subBass);
    assert f["bass"] == JInt(b.bass);
    assert f["mid"] == JInt(b.mid);
    assert f["treble"] == JInt(b.treble);
    assert f["presence"] == JInt(b.presence);
  }

  /** The keys of a JSON null or object; a null decodes to no keys at all. */
  function RawFields(data: Json): map<string, Json> {
    if data.JObject? then data.fields else map[]
  }

  /** The map the loop ticks the keys off in. */
  method NothingSeen() returns (seen: map<string, bool>)
    ensures forall k :: k in seen <==> IsBandKey(k)
    ensures forall k | k in seen :: !seen[k]
  {
    seen := map[];
    for i := 0 to |BAND_KEYS|
      invariant forall k :: k in seen <==> k in BAND_KEYS[..i]
      invariant forall k | k in seen :: !seen[k]
    {
      seen := seen[BAND_KEYS[i] := false];
    }
    assert BAND_KEYS[..|BAND_KEYS|] == BAND_KEYS;
    forall k ensures k in seen <==> IsBandKey(k) { BandKeys(k); }
  }

  /** The final decoding into the struct, once the keys are known to be right. */
  method DecodeFields(raw: map<string, Json>) returns (r: Decoded)
    requires FieldsOf(raw)
    ensures r == if BandsFromJSON(JObject(raw)).Some? then Parsed(BandsFromJSON(JObject(raw)).value) else Rejected(NotAnInteger)
  {
    if k :| k in raw && !IntegerLike(raw[k]) {
      return Rejected(NotAnInteger);
    }
    return Parsed(Bands(IntValue(raw["subBass"]), IntValue(raw["bass"]), IntValue(raw["mid"]),
                        IntValue(raw["treble"]), IntValue(raw["presence"])));
  }

  /** UnmarshalJSON: tick off the keys present, reject strangers, report the first absent key, then decode.
      Go ranges over the raw map in no fixed order, so which stranger is reported is left open. */
  method UnmarshalJSON(data: Json) returns (r: Decoded)
    ensures r.Parsed? <==> BandsFromJSON(data).Some?
    ensures r.Parsed? ==> r.bands == BandsFromJSON(data).value
    ensures r == Rejected(NotAnObject) <==> data.JInt? || data.JOther?
    ensures r.Rejected? && r.error.UnknownField? ==> r.error.key in RawFields(data) && !IsBandKey(r.error.key)
    ensures r.Rejected? && r.error.MissingField? ==>
              && (forall k | k in RawFields(data) :: IsBandKey(k))
              && (exists i | 0 <= i < |BAND_KEYS| :: BAND_KEYS[i] == r.error.key && r.error.key !in RawFields(data)
                                                     && forall j | 0 <= j < i :: BAND_KEYS[j] in RawFields(data))
    ensures r == Rejected(NotAnInteger) ==> data.JObject? && FieldsOf(data.fields)
  {
    if data.JInt? || data.JOther? {
      return Rejected(NotAnObject);
    }
    var raw := RawFields(data);
    var seen := NothingSeen();
    var rest := raw.Keys;
    while rest != {}
      invariant rest <= raw.Keys
      invariant forall k :: k in seen <==> IsBandKey(k)
      invariant forall k | k in raw.Keys - rest :: IsBandKey(k)
      invariant forall k | k in seen :: seen[k] <==> k in raw.Keys - rest
    {
      var k :| k in rest;
      if k !in seen {
        return Rejected(UnknownField(k));
      }
      seen := seen[k := true];
      rest := rest - {k};
    }
    for i := 0 to |BAND_KEYS|
      invariant forall j | 0 <= j < i :: BAND_KEYS[j] in raw
    {
      BandKeys(BAND_KEYS[i]);
      if !seen[BAND_KEYS[i]] {
        return Rejected(MissingField(BAND_KEYS[i]));
      }
    }
    assert BAND_KEYS[0] in raw && BAND_KEYS[1] in raw && BAND_KEYS[2] in raw && BAND_KEYS[3] in raw && BAND_KEYS[4] in raw;
    r := DecodeFields(raw);
  }

  function BandOf(b: Bands, key: string): int {
    if key == "subBass" then b.subBass
    else if key == "bass" then b.bass
    else if key == "mid" then b.mid
    else if key == "treble" then b.treble
    else b.presence
  }

  /** What decodes: an object with the five keys and no other, each null, for 0, or an integer of 64 bits. */
  lemma DecodesExactly(j: Json)
    ensures BandsFromJSON(j).Some? <==>
      && j.JObject?
      && (forall k :: k in j.fields <==> IsBandKey(k))
      && (forall k | k in j.fields :: j.fields[k].JNull? ||
            (j.fields[k].JInt? && -0x8000_0000_0000_0000 <= j.fields[k].n < 0x8000_0000_0000_0000))
    ensures BandsFromJSON(j).Some? ==>
      forall k | IsBandKey(k) :: k in j.fields && BandOf(BandsFromJSON(j).value, k) == (match j.fields[k] case JInt(n) => n case _ => 0)
  {
  }

  /** The stored object names each band by its own key: no two are mixed up, on the way in or out. */
  lemma EachBandUnderItsKey(b: Bands, k: string)
    requires IsBandKey(k)
    ensures k in BandsToJSON(b).fields && BandsToJSON(b).fields[k] == JInt(BandOf(b, k))
    ensures IntegerLike(JInt(BandOf(b, k))) && BandsFromJSON(BandsToJSON(b)).Some? ==>
      BandOf(BandsFromJSON(BandsToJSON(b)).value, k) == BandOf(b, k)
  {
  }

  function CheckBand(fields: map<string, string>, name: string, v: int): map<string, string> {
    if v < -12 || v > 12 then fields["bands." + name := "must be between -12 and 12"] else fields
  }

  predicate Reported(fields: map<string, string>, k: string) {
    "bands." + k in fields
  }

  predicate OnlyBandsReported(fields: map<string, string>) {
    forall f | f in fields :: |f| > 6 && f[..6] == "bands." && IsBandKey(f[6..])
  }

  lemma CheckBandAdds(fields: map<string, string>, name: string, v: int)
    ensures forall k :: Reported(CheckBand(fields, name, v), k) <==> Reported(fields, k) || (k == name && !(-12 <= v <= 12))
    ensures CheckBand(fields, name, v) == map[] <==> fields == map[] && -12 <= v <= 12
  {
    forall k ensures "bands." + k == "bands." + name <==> k == name {
      assert ("bands." + k)[6..] == k;
    }
    if !(-12 <= v <= 12) {
      assert "bands." + name in CheckBand(fields, name, v);
    }
  }

  lemma CheckBandIsABand(fields: map<string, string>, name: string, v: int)
    requires IsBandKey(name) && OnlyBandsReported(fields)
    ensures OnlyBandsReported(CheckBand(fields, name, v))
  {
    assert ("bands." + name)[6..] == name && ("bands." + name)[..6] == "bands.";
  }

  /** The five checks one after the other. */
  function Checked(b: Bands): map<string, string> {
    CheckBand(CheckBand(CheckBand(CheckBand(CheckBand(map[],
      "subBass", b.subBass), "bass", b.bass), "mid", b.mid), "treble", b.treble), "presence", b.presence)
  }

  lemma CheckedReports(b: Bands, k: string)
    ensures Reported(Checked(b), k) <==> IsBandKey(k) && !(-12 <= BandOf(b, k) <= 12)
    ensures Checked(b) == map[] <==> InRange(b)
  {
    var f1 := CheckBand(map[], "subBass", b.subBass);
    var f2 := CheckBand(f1, "bass", b.bass);
    var f3 := CheckBand(f2, "mid", b.mid);
    var f4 := CheckBand(f3, "treble", b.treble);
    CheckBandAdds(map[], "subBass", b.subBass);
    CheckBandAdds(f1, "bass", b.bass);
    CheckBandAdds(f2, "mid", b.mid);
    CheckBandAdds(f3, "treble", b.treble);
    CheckBandAdds(f4, "presence", b.presence);
  }

  lemma CheckedIsAboutBands(b: Bands)
    ensures OnlyBandsReported(Checked(b))
  {
    var f1 := CheckBand(map[], "subBass", b.subBass);
    var f2 := CheckBand(f1, "bass", b.bass);
    var f3 := CheckBand(f2, "mid", b.mid);
    var f4 := CheckBand(f3, "treble", b.treble);
    CheckBandIsABand(map[], "subBass", b.subBass);
    CheckBandIsABand(f1, "bass", b.bass);
    CheckBandIsABand(f2, "mid", b.mid);
    CheckBandIsABand(f3, "treble", b.treble);
    CheckBandIsABand(f4, "presence", b.presence);
  }

  /** ValidateBands: one message per offending band, none exactly when every band is in range. */
  method ValidateBands(b: Bands) returns (fields: map<string, string>)
    ensures fields == map[] <==> InRange(b)
    ensures forall k :: Reported(fields, k) <==> IsBandKey(k) && !(-12 <= BandOf(b, k) <= 12)
    ensures forall f | f in fields :: |f| > 6 && f[..6] == "bands." && IsBandKey(f[6..])
  {
    fields := CheckBand(map[], "subBass", b.subBass);
    fields := CheckBand(fields, "bass", b.bass);
    fields := CheckBand(fields, "mid", b.mid);
    fields := CheckBand(fields, "treble", b.treble);
    fields := CheckBand(fields, "presence", b.presence);
    assert fields == Checked(b);
    CheckedReports(b, "");
    CheckedIsAboutBands(b);
    forall k ensures Reported(fields, k) <==> IsBandKey(k) && !(-12 <= BandOf(b, k) <= 12) {
      CheckedReports(b, k);
    }
  }
}
