/**
 * The text form in which the session keeps a farmer profile in the browser's
 * storage (`JSON.stringify` on write, `JSON.parse` on read, app-context.tsx).
 *
 * Stringify writes the profile as a JSON object with the fields in the
 * declaration order of the record; optional fields that are absent are left
 * out. Parse is partial: it reads back exactly the texts Stringify writes and
 * fails on everything else. The round trip Parse(Stringify(p)) == Some(p) is
 * what the session relies on.
 *
 * Every encoder takes the text that follows it (`rest`) and every parser
 * returns the value it read together with the text left over, so that the
 * round trip can be proved one field at a time.
 */
module ProfileJson {
  import opened Text
  import opened Farm

  // ---------------------------------------------------------------------------
  // Literal punctuation and field names
  // ---------------------------------------------------------------------------

  function ParseLit(t: string, lit: string): (r: Option<string>)
    ensures r.Some? ==> |r.value| + |lit| == |t|
  {
    if lit <= t then Some(t[|lit|..]) else None
  }

  lemma LitRoundTrip(lit: string, rest: string)
    ensures ParseLit(lit + rest, lit) == Some(rest)
  {
    assert lit <= lit + rest;
    assert (lit + rest)[|lit|..] == rest;
  }

  // ---------------------------------------------------------------------------
  // Strings: a double quote and a backslash are escaped with a backslash.
  // ---------------------------------------------------------------------------

  function Escape(s: string): string {
    if s == [] then []
    else (if s[0] == '"' || s[0] == '\\' then ['\\', s[0]] else [s[0]]) + Escape(s[1..])
  }

  function EncString(s: string, rest: string): string {
    ['"'] + Escape(s) + ['"'] + rest
  }

  /** Reads escaped characters up to the closing (unescaped) double quote. */
  function ParseEscaped(t: string): (r: Option<(string, string)>)
    ensures r.Some? ==> |r.value.1| < |t|
    decreases |t|
  {
    if t == [] then None
    else if t[0] == '"' then Some(([], t[1..]))
    else if t[0] == '\\' then
      if |t| < 2 then None
      else
        var p :- ParseEscaped(t[2..]);
        Some(([t[1]] + p.0, p.1))
    else
      var p :- ParseEscaped(t[1..]);
      Some(([t[0]] + p.0, p.1))
  }

  function ParseString(t: string): (r: Option<(string, string)>)
    ensures r.Some? ==> |r.value.1| < |t|
  {
    if |t| > 0 && t[0] == '"' then ParseEscaped(t[1..]) else None
  }

  lemma {:induction false} EscapedRoundTrip(s: string, rest: string)
    ensures ParseEscaped(Escape(s) + ['"'] + rest) == Some((s, rest))
  {
    var t := Escape(s) + ['"'] + rest;
    if s == [] {
      assert t == ['"'] + rest;
    } else {
      EscapedRoundTrip(s[1..], rest);
      var tail := Escape(s[1..]) + ['"'] + rest;
      assert [s[0]] + s[1..] == s;
      if s[0] == '"' || s[0] == '\\' {
        assert t == ['\\', s[0]] + tail;
        assert t[0] == '\\' && t[1] == s[0];
        assert t[2..] == tail;
      } else {
        assert t == [s[0]] + tail;
        assert t[0] == s[0];
        assert t[1..] == tail;
      }
    }
  }

  lemma StringRoundTrip(s: string, rest: string)
    ensures ParseString(EncString(s, rest)) == Some((s, rest))
  {
    var t := EncString(s, rest);
    assert t[0] == '"';
    assert t[1..] == Escape(s) + ['"'] + rest;
    EscapedRoundTrip(s, rest);
  }

  // ---------------------------------------------------------------------------
  // Land areas: a whole number of tenths, written as a decimal with one digit
  // after the point ("2.5" for 25 tenths).
  // ---------------------------------------------------------------------------

  function Abs(n: int): nat {
    if n < 0 then -n else n
  }

  function EncTenths(n: int, rest: string): string {
    (if n < 0 then "-" else "") + Decimal(Abs(n) / 10) + ['.', DigitChar(Abs(n) % 10)] + rest
  }

  /** The longest prefix of digits, and what follows it. */
  function TakeDigits(t: string): (r: (string, string))
    ensures r.0 + r.1 == t
    ensures forall i :: 0 <= i < |r.0| ==> IsDigit(r.0[i])
  {
    if t != [] && IsDigit(t[0]) then
      var p := TakeDigits(t[1..]);
      assert [t[0]] + (p.0 + p.1) == t;
      var d := [t[0]] + p.0;
      assert forall i :: 1 <= i < |d| ==> d[i] == p.0[i - 1];
      (d, p.1)
    else ([], t)
  }

  lemma {:induction false} TakeDigitsOf(d: string, rest: string)
    requires forall i :: 0 <= i < |d| ==> IsDigit(d[i])
    requires rest == [] || !IsDigit(rest[0])
    ensures TakeDigits(d + rest) == (d, rest)
  {
    if d != [] {
      assert (d + rest)[0] == d[0];
      assert (d + rest)[1..] == d[1..] + rest;
      TakeDigitsOf(d[1..], rest);
      assert [d[0]] + d[1..] == d;
    } else {
      assert d + rest == rest;
    }
  }

  function ParseTenths(t: string): (r: Option<(int, string)>)
    ensures r.Some? ==> |r.value.1| < |t|
  {
    var neg := |t| > 0 && t[0] == '-';
    var u := if neg then t[1..] else t;
    var p := TakeDigits(u);
    if p.0 == [] || |p.1| < 2 || p.1[0] != '.' || !IsDigit(p.1[1]) then None
    else
      var v := DigitsValue(p.0) * 10 + (p.1[1] as int - '0' as int);
      Some((if neg then -v else v, p.1[2..]))
  }

  lemma TenthsRoundTrip(n: int, rest: string)
    ensures ParseTenths(EncTenths(n, rest)) == Some((n, rest))
  {
    var t := EncTenths(n, rest);
    var d := Decimal(Abs(n) / 10);
    var tail := ['.', DigitChar(Abs(n) % 10)] + rest;
    var u := d + tail;
    if n < 0 {
      assert t == "-" + u;
      assert t[1..] == u;
    } else {
      assert t == u;
      assert d[0] != '-';
    }
    TakeDigitsOf(d, tail);
    DecimalValue(Abs(n) / 10);
    assert tail[2..] == rest;
  }

  // ---------------------------------------------------------------------------
  // Optional string fields: `,"<name>":"<value>"` when present, nothing when absent.
  // ---------------------------------------------------------------------------

  function FieldLit(name: string): string {
    ",\"" + name + "\":"
  }

  function EncOptString(name: string, v: Option<string>, rest: string): string {
    match v
    case None => rest
    case Some(s) => FieldLit(name) + EncString(s, rest)
  }

  function ParseOptString(t: string, name: string): (r: Option<(Option<string>, string)>)
    ensures r.Some? ==> |r.value.1| <= |t|
  {
    var lit := FieldLit(name);
    if lit <= t then
      var p :- ParseString(t[|lit|..]);
      Some((Some(p.0), p.1))
    else Some((None, t))
  }

  lemma OptStringRoundTrip(name: string, v: Option<string>, rest: string)
    requires v.None? ==> !(FieldLit(name) <= rest)
    ensures ParseOptString(EncOptString(name, v, rest), name) == Some((v, rest))
  {
    if v.Some? {
      var lit := FieldLit(name);
      var t := EncOptString(name, v, rest);
      assert lit <= t;
      assert t[|lit|..] == EncString(v.value, rest);
      StringRoundTrip(v.value, rest);
    }
  }

  function EncOptLanguage(l: Option<Language>, rest: string): string {
    match l
    case None => rest
    case Some(lang) => EncOptString("language", Some(LanguageCode(lang)), rest)
  }

  function ParseOptLanguage(t: string): (r: Option<(Option<Language>, string)>)
    ensures r.Some? ==> |r.value.1| <= |t|
  {
    var p :- ParseOptString(t, "language");
    match p.0
    case None => Some((None, p.1))
    case Some(code) =>
      if code == "en" then Some((Some(En), p.1))
      else if code == "ml" then Some((Some(Ml), p.1))
      else None
  }

  lemma OptLanguageRoundTrip(l: Option<Language>, rest: string)
    requires l.None? ==> !(FieldLit("language") <= rest)
    ensures ParseOptLanguage(EncOptLanguage(l, rest)) == Some((l, rest))
  {
    match l
    case None => OptStringRoundTrip("language", None, rest);
    case Some(lang) => OptStringRoundTrip("language", Some(LanguageCode(lang)), rest);
  }

  // ---------------------------------------------------------------------------
  // Parcels
  // ---------------------------------------------------------------------------

  function EncParcel(p: FarmParcel, rest: string): (r: string)
    ensures |r| > 0 && r[0] == '{'
  {
    "{\"landArea\":" + EncTenths(p.landArea,
    ",\"crops\":" + EncString(p.crops,
    ",\"soilType\":" + EncString(p.soilType,
    ",\"irrigationMethod\":" + EncString(p.irrigationMethod,
    "}" + rest))))
  }

  function ParseParcel(t: string): (r: Option<(FarmParcel, string)>)
    ensures r.Some? ==> |r.value.1| < |t|
  {
    var t1 :- ParseLit(t, "{\"landArea\":");
    var area :- ParseTenths(t1);
    var t2 :- ParseLit(area.1, ",\"crops\":");
    var crops :- ParseString(t2);
    var t3 :- ParseLit(crops.1, ",\"soilType\":");
    var soil :- ParseString(t3);
    var t4 :- ParseLit(soil.1, ",\"irrigationMethod\":");
    var irrigation :- ParseString(t4);
    var t5 :- ParseLit(irrigation.1, "}");
    Some((FarmParcel(area.0, crops.0, soil.0, irrigation.0), t5))
  }

  lemma ParcelRoundTrip(p: FarmParcel, rest: string)
    ensures ParseParcel(EncParcel(p, rest)) == Some((p, rest))
  {
    var s5 := "}" + rest;
    var s4 := ",\"irrigationMethod\":" + EncString(p.irrigationMethod, s5);
    var s3 := ",\"soilType\":" + EncString(p.soilType, s4);
    var s2 := ",\"crops\":" + EncString(p.crops, s3);
    var s1 := EncTenths(p.landArea, s2);
    LitRoundTrip("{\"landArea\":", s1);
    TenthsRoundTrip(p.landArea, s2);
    LitRoundTrip(",\"crops\":", EncString(p.crops, s3));
    StringRoundTrip(p.crops, s3);
    LitRoundTrip(",\"soilType\":", EncString(p.soilType, s4));
    StringRoundTrip(p.soilType, s4);
    LitRoundTrip(",\"irrigationMethod\":", EncString(p.irrigationMethod, s5));
    StringRoundTrip(p.irrigationMethod, s5);
    LitRoundTrip("}", rest);
  }

  /** The parcels of a non-empty list, separated by commas, then `rest`. */
  function EncParcelItems(ps: seq<FarmParcel>, rest: string): (r: string)
    requires |ps| >= 1
    ensures |r| > 0 && r[0] == '{'
  {
    if |ps| == 1 then EncParcel(ps[0], rest)
    else EncParcel(ps[0], "," + EncParcelItems(ps[1..], rest))
  }

  function EncParcels(ps: seq<FarmParcel>, rest: string): string {
    if ps == [] then "[]" + rest else "[" + EncParcelItems(ps, "]" + rest)
  }

  function ParseParcelItems(t: string): (r: Option<(seq<FarmParcel>, string)>)
    ensures r.Some? ==> |r.value.1| < |t|
    decreases |t|
  {
    var p :- ParseParcel(t);
    if |p.1| > 0 && p.1[0] == ',' then
      var q :- ParseParcelItems(p.1[1..]);
      Some(([p.0] + q.0, q.1))
    else if |p.1| > 0 && p.1[0] == ']' then Some(([p.0], p.1[1..]))
    else None
  }

  function ParseParcels(t: string): (r: Option<(seq<FarmParcel>, string)>)
    ensures r.Some? ==> |r.value.1| < |t|
  {
    if "[]" <= t then Some(([], t[2..]))
    else
      var t1 :- ParseLit(t, "[");
      ParseParcelItems(t1)
  }

  /** One step of ParseParcelItems, once the first parcel is known to parse. */
  lemma ParseItemsStep(t: string, p: FarmParcel, u: string)
    requires ParseParcel(t) == Some((p, u))
    ensures |u| > 0 && u[0] == ']' ==> ParseParcelItems(t) == Some(([p], u[1..]))
    ensures |u| > 0 && u[0] == ',' ==>
      ParseParcelItems(t) == (match ParseParcelItems(u[1..])
                              case None => None
                              case Some(q) => Some(([p] + q.0, q.1)))
  {
  }

  /** The last parcel of the list, followed by the closing bracket. */
  lemma ParcelItemsLast(p: FarmParcel, rest: string)
    ensures ParseParcelItems(EncParcel(p, "]" + rest)) == Some(([p], rest))
  {
    var u := "]" + rest;
    ParcelRoundTrip(p, u);
    assert u[1..] == rest;
    ParseItemsStep(EncParcel(p, u), p, u);
  }

  /** A parcel in front of a list that reads back reads back with it. */
  lemma ParcelItemsCons(p: FarmParcel, ps: seq<FarmParcel>, rest: string)
    requires |ps| >= 1
    requires ParseParcelItems(EncParcelItems(ps, "]" + rest)) == Some((ps, rest))
    ensures ParseParcelItems(EncParcelItems([p] + ps, "]" + rest)) == Some(([p] + ps, rest))
  {
    var u := "," + EncParcelItems(ps, "]" + rest);
    assert ([p] + ps)[1..] == ps;
    assert EncParcelItems([p] + ps, "]" + rest) == EncParcel(p, u);
    ParcelRoundTrip(p, u);
    assert u[1..] == EncParcelItems(ps, "]" + rest);
    ParseItemsStep(EncParcel(p, u), p, u);
  }

  lemma {:induction false} ParcelItemsRoundTrip(ps: seq<FarmParcel>, rest: string)
    requires |ps| >= 1
    ensures ParseParcelItems(EncParcelItems(ps, "]" + rest)) == Some((ps, rest))
  {
    if |ps| == 1 {
      ParcelItemsLast(ps[0], rest);
      assert ps == [ps[0]];
    } else {
      assert [ps[0]] + ps[1..] == ps;
      ParcelItemsRoundTrip(ps[1..], rest);
      ParcelItemsCons(ps[0], ps[1..], rest);
    }
  }

  lemma ParcelsRoundTrip(ps: seq<FarmParcel>, rest: string)
    ensures ParseParcels(EncParcels(ps, rest)) == Some((ps, rest))
  {
    var t := EncParcels(ps, rest);
    if ps == [] {
      assert "[]" <= t;
      assert t[2..] == rest;
    } else {
      var items := EncParcelItems(ps, "]" + rest);
      assert t == "[" + items;
      assert t[1] == items[0] == '{';
      assert !("[]" <= t);
      LitRoundTrip("[", items);
      ParcelItemsRoundTrip(ps, rest);
    }
  }

  // ---------------------------------------------------------------------------
  // The whole profile
  // ---------------------------------------------------------------------------

  /** The three optional fields, in the order location, language, photoUrl. */
  function EncOptionals(location: Option<string>, language: Option<Language>, photoUrl: Option<string>,
                        rest: string): string
  {
    EncOptString("location", location, EncOptLanguage(language, EncOptString("photoUrl", photoUrl, rest)))
  }

  function ParseOptionals(t: string): (r: Option<(Option<string>, Option<Language>, Option<string>, string)>)
    ensures r.Some? ==> |r.value.3| <= |t|
  {
    var location :- ParseOptString(t, "location");
    var language :- ParseOptLanguage(location.1);
    var photo :- ParseOptString(language.1, "photoUrl");
    Some((location.0, language.0, photo.0, photo.1))
  }

  /** `lit` is not a prefix of any text that begins with `other`, when the two differ at `k`. */
  lemma NotPrefix(lit: string, other: string, t: string, k: nat)
    requires other <= t
    requires k < |lit| && k < |other| && lit[k] != other[k]
    ensures !(lit <= t)
  {
  }

  lemma FieldPrefix(name: string, s: string, rest: string)
    ensures ",\"" + name <= EncOptString(name, Some(s), rest)
  {
    assert EncOptString(name, Some(s), rest) == ",\"" + name + ("\":" + EncString(s, rest));
  }

  /** The photo field reads back, and what it leaves starts with neither earlier field. */
  lemma PhotoRoundTrip(photoUrl: Option<string>, rest: string)
    requires ",\"f" <= rest
    ensures ParseOptString(EncOptString("photoUrl", photoUrl, rest), "photoUrl") == Some((photoUrl, rest))
    ensures !(FieldLit("language") <= EncOptString("photoUrl", photoUrl, rest))
    ensures !(FieldLit("location") <= EncOptString("photoUrl", photoUrl, rest))
  {
    var s5 := EncOptString("photoUrl", photoUrl, rest);
    if photoUrl.None? {
      NotPrefix(FieldLit("photoUrl"), ",\"f", rest, 2);
      NotPrefix(FieldLit("language"), ",\"f", s5, 2);
      NotPrefix(FieldLit("location"), ",\"f", s5, 2);
    } else {
      FieldPrefix("photoUrl", photoUrl.value, rest);
      assert ",\"p" <= s5;
      NotPrefix(FieldLit("language"), ",\"p", s5, 2);
      NotPrefix(FieldLit("location"), ",\"p", s5, 2);
    }
    OptStringRoundTrip("photoUrl", photoUrl, rest);
  }

  /** The language field reads back, and what it leaves does not start with the location field. */
  lemma LanguageFieldRoundTrip(language: Option<Language>, s5: string)
    requires !(FieldLit("language") <= s5) && !(FieldLit("location") <= s5)
    ensures ParseOptLanguage(EncOptLanguage(language, s5)) == Some((language, s5))
    ensures !(FieldLit("location") <= EncOptLanguage(language, s5))
  {
    OptLanguageRoundTrip(language, s5);
    if language.Some? {
      var s4 := EncOptLanguage(language, s5);
      FieldPrefix("language", LanguageCode(language.value), s5);
      assert ",\"la" <= s4;
      NotPrefix(FieldLit("location"), ",\"la", s4, 3);
    }
  }

  /**
   * The optional fields read back as written, provided what follows them
   * starts with the next mandatory field, `,"farmParcels"`.
   */
  lemma OptionalsRoundTrip(location: Option<string>, language: Option<Language>, photoUrl: Option<string>,
                           rest: string)
    requires ",\"f" <= rest
    ensures ParseOptionals(EncOptionals(location, language, photoUrl, rest))
      == Some((location, language, photoUrl, rest))
  {
    var s5 := EncOptString("photoUrl", photoUrl, rest);
    var s4 := EncOptLanguage(language, s5);
    PhotoRoundTrip(photoUrl, rest);
    LanguageFieldRoundTrip(language, s5);
    OptStringRoundTrip("location", location, s4);
  }

  function Stringify(p: FarmerProfile): string {
    "{\"name\":" + EncString(p.name,
    ",\"village\":" + EncString(p.village,
    EncOptionals(p.location, p.language, p.photoUrl,
    ",\"farmParcels\":" + EncParcels(p.farmParcels, "}"))))
  }

  function Parse(t: string): Option<FarmerProfile> {
    var t1 :- ParseLit(t, "{\"name\":");
    var name :- ParseString(t1);
    var t2 :- ParseLit(name.1, ",\"village\":");
    var village :- ParseString(t2);
    var opt :- ParseOptionals(village.1);
    var t3 :- ParseLit(opt.3, ",\"farmParcels\":");
    var parcels :- ParseParcels(t3);
    if parcels.1 == "}" then
      Some(FarmerProfile(name.0, village.0, opt.0, opt.1, opt.2, parcels.0))
    else None
  }

  /** Reading back what Stringify wrote gives the same profile. */
  lemma RoundTrip(p: FarmerProfile)
    ensures Parse(Stringify(p)) == Some(p)
  {
    var s6 := ",\"farmParcels\":" + EncParcels(p.farmParcels, "}");
    var s3 := EncOptionals(p.location, p.language, p.photoUrl, s6);
    var s2 := ",\"village\":" + EncString(p.village, s3);
    LitRoundTrip("{\"name\":", EncString(p.name, s2));
    StringRoundTrip(p.name, s2);
    LitRoundTrip(",\"village\":", EncString(p.village, s3));
    StringRoundTrip(p.village, s3);
    assert ",\"f" <= s6;
    OptionalsRoundTrip(p.location, p.language, p.photoUrl, s6);
    LitRoundTrip(",\"farmParcels\":", EncParcels(p.farmParcels, "}"));
    ParcelsRoundTrip(p.farmParcels, "}");
  }
}
