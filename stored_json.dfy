/**
 * The text form of a stored valentine record. In the source the record is
 * written with `JSON.stringify` and read back with `JSON.parse`; this module
 * stands in for that pair with an encoder that writes the record's three
 * fields as a JSON object (escaping `"` and `\`) and a decoder that accepts
 * exactly that layout and fails on anything else. What the store relies on
 * is the round trip, proved here as `DecodeEncode`.
 */
module StoredJson {

  import opened Wrappers

  /** `StoredValentine`: what `storeValentineKey` writes under a valentine's key. */
  datatype StoredValentine = StoredValentine(id: string, ownerKey: string, createdAt: string)

  /** Characters written with a backslash in front of them. */
  predicate NeedsEscape(c: char)
  {
    c == '"' || c == '\\'
  }

  function Escape(s: string): string
  {
    if s == [] then []
    else (if NeedsEscape(s[0]) then ['\\', s[0]] else [s[0]]) + Escape(s[1..])
  }

  function Quote(s: string): string
  {
    "\"" + Escape(s) + "\""
  }

  /**
   * Reads the characters of a string literal up to its closing quote, undoing
   * the escapes; returns them and the text after the closing quote. It fails
   * on a missing closing quote and on an escape it does not know.
   */
  function ParseChars(t: string): (r: Option<(string, string)>)
    ensures r.Some? ==> |r.value.1| < |t|
    decreases |t|
  {
    if t == [] then None
    else if t[0] == '"' then Some(([], t[1..]))
    else if t[0] == '\\' then
      if |t| >= 2 && NeedsEscape(t[1]) then
        var (s, rest) :- ParseChars(t[2..]);
        Some(([t[1]] + s, rest))
      else None
    else
      var (s, rest) :- ParseChars(t[1..]);
      Some(([t[0]] + s, rest))
  }

  /** A string literal at the head of `t`: its contents and the text after it. */
  function ParseString(t: string): Option<(string, string)>
  {
    if t != [] && t[0] == '"' then ParseChars(t[1..]) else None
  }

  /** Reading back an escaped string stops at the quote that closes it. */
  lemma {:induction false} ParseCharsEscape(s: string, rest: string)
    ensures ParseChars(Escape(s) + "\"" + rest) == Some((s, rest))
    decreases |s|
  {
    var t := Escape(s) + "\"" + rest;
    if s == [] {
      assert t == "\"" + rest;
    } else {
      ParseCharsEscape(s[1..], rest);
      var tail := Escape(s[1..]) + "\"" + rest;
      if NeedsEscape(s[0]) {
        assert t == ['\\', s[0]] + tail;
        assert t[2..] == tail;
      } else {
        assert t == [s[0]] + tail;
        assert t[1..] == tail;
      }
      assert [s[0]] + s[1..] == s;
    }
  }

  lemma ParseStringQuote(s: string, rest: string)
    ensures ParseString(Quote(s) + rest) == Some((s, rest))
  {
    var t := Quote(s) + rest;
    assert t[1..] == Escape(s) + "\"" + rest;
    ParseCharsEscape(s, rest);
  }

  /** Consumes the text `lit` at the head of `t`. */
  function Expect(lit: string, t: string): (r: Option<string>)
    ensures r.Some? <==> lit <= t
    ensures r.Some? ==> t == lit + r.value
  {
    if lit <= t then Some(t[|lit|..]) else None
  }

  lemma ExpectPrefix(lit: string, rest: string)
    ensures Expect(lit, lit + rest) == Some(rest)
  {
  }

  const IdField: string := "{\"id\":"
  const OwnerKeyField: string := ",\"ownerKey\":"
  const CreatedAtField: string := ",\"createdAt\":"
  const ObjectEnd: string := "}"

  /** One member of the object: its name text (`lit`) followed by the quoted value. */
  function Field(lit: string, value: string): string
  {
    lit + Quote(value)
  }

  /** Reads one member written by `Field`: its value and the text after it. */
  function ReadField(lit: string, t: string): (r: Option<(string, string)>)
    ensures r.Some? ==> lit <= t
  {
    var rest :- Expect(lit, t);
    ParseString(rest)
  }

  lemma ReadFieldField(lit: string, value: string, rest: string)
    ensures ReadField(lit, Field(lit, value) + rest) == Some((value, rest))
  {
    assert Field(lit, value) + rest == lit + (Quote(value) + rest);
    ExpectPrefix(lit, Quote(value) + rest);
    ParseStringQuote(value, rest);
  }

  /** `JSON.stringify(data)` for a stored record: an object whose first member is `id`. */
  function Encode(v: StoredValentine): (t: string)
    ensures IdField <= t && t[|t| - 1] == '}'
  {
    Field(IdField, v.id) + (Field(OwnerKeyField, v.ownerKey) + (Field(CreatedAtField, v.createdAt) + ObjectEnd))
  }

  /**
   * `JSON.parse(stored)` read as a stored record; `None` where parsing fails.
   * Only text that starts the object with its `id` member is accepted, so in
   * particular the empty text is rejected.
   */
  function Decode(t: string): (r: Option<StoredValentine>)
    ensures r.Some? ==> IdField <= t
    ensures t == [] ==> r == None
  {
    var (id, t1) :- ReadField(IdField, t);
    var (ownerKey, t2) :- ReadField(OwnerKeyField, t1);
    var (createdAt, t3) :- ReadField(CreatedAtField, t2);
    if t3 == ObjectEnd then Some(StoredValentine(id, ownerKey, createdAt)) else None
  }

  /** Every record reads back as itself, and its text is never empty. */
  lemma DecodeEncode(v: StoredValentine)
    ensures Decode(Encode(v)) == Some(v)
    ensures Encode(v) != []
  {
    var t2 := Field(CreatedAtField, v.createdAt) + ObjectEnd;
    var t1 := Field(OwnerKeyField, v.ownerKey) + t2;
    ReadFieldField(IdField, v.id, t1);
    ReadFieldField(OwnerKeyField, v.ownerKey, t2);
    ReadFieldField(CreatedAtField, v.createdAt, ObjectEnd);
  }

  /** Whatever reads as a string literal was written by `Escape` and a closing quote. */
  lemma {:induction false} ParseCharsCanonical(t: string)
    requires ParseChars(t).Some?
    ensures t == Escape(ParseChars(t).value.0) + "\"" + ParseChars(t).value.1
    decreases |t|
  {
    var (s, rest) := ParseChars(t).value;
    if t[0] == '"' {
      assert s == [];
    } else if t[0] == '\\' {
      ParseCharsCanonical(t[2..]);
      var (s', rest') := ParseChars(t[2..]).value;
      assert s == [t[1]] + s' && rest == rest';
      assert s[1..] == s';
      assert t == ['\\', t[1]] + t[2..];
    } else {
      ParseCharsCanonical(t[1..]);
      var (s', rest') := ParseChars(t[1..]).value;
      assert s == [t[0]] + s' && rest == rest';
      assert s[1..] == s';
      assert t == [t[0]] + t[1..];
    }
  }

  lemma ReadFieldCanonical(lit: string, t: string)
    requires ReadField(lit, t).Some?
    ensures t == Field(lit, ReadField(lit, t).value.0) + ReadField(lit, t).value.1
  {
    var rest := Expect(lit, t).value;
    ParseCharsCanonical(rest[1..]);
    assert rest == [rest[0]] + rest[1..];
  }

  /**
   * The text of a record is unique: whatever decodes is exactly the encoding
   * of the record it decodes to, so no two texts stand for the same record.
   */
  lemma EncodeDecode(t: string)
    requires Decode(t).Some?
    ensures Encode(Decode(t).value) == t
  {
    var (id, t1) := ReadField(IdField, t).value;
    var (ownerKey, t2) := ReadField(OwnerKeyField, t1).value;
    var (createdAt, t3) := ReadField(CreatedAtField, t2).value;
    ReadFieldCanonical(IdField, t);
    ReadFieldCanonical(OwnerKeyField, t1);
    ReadFieldCanonical(CreatedAtField, t2);
  }
}
