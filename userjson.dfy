/** The text the session keeps under the `user` storage key:
    `JSON.stringify` of the signed-in user, and the `JSON.parse` that reads it
    back, restricted to the one object shape the session writes. */
module UserJson {
  import opened Wrappers

  /** The signed-in user; `profile_img` may be absent. */
  datatype User = User(id: string, email: string, name: string, profileImg: Option<string>)

  /** A string's characters with `"` and `\` escaped by a backslash. */
  function Escape(s: string): (r: string)
    ensures |r| >= |s|
  {
    if s == [] then []
    else (if s[0] == '"' || s[0] == '\\' then ['\\', s[0]] else [s[0]]) + Escape(s[1..])
  }

  /** Reads the body of a JSON string up to its closing quote, returning the
      unescaped text and what follows the quote. */
  function ReadString(s: string): (r: Option<(string, string)>)
    decreases |s|
  {
    if s == [] then None
    else if s[0] == '"' then Some(([], s[1..]))
    else if s[0] == '\\' then
      if |s| < 2 then None
      else match ReadString(s[2..])
        case None => None
        case Some(p) => Some(([s[1]] + p.0, p.1))
    else match ReadString(s[1..])
      case None => None
      case Some(p) => Some(([s[0]] + p.0, p.1))
  }

  /** Reading an escaped string back gives the string and the rest untouched. */
  lemma {:induction false} ReadEscape(v: string, rest: string)
    ensures ReadString(Escape(v) + "\"" + rest) == Some((v, rest))
  {
    if v == [] {
      assert Escape(v) + "\"" + rest == ['"'] + rest;
    } else {
      var t := Escape(v[1..]) + "\"" + rest;
      ReadEscape(v[1..], rest);
      EscapeCons(v);
      AppendAssoc(Escape([v[0]]), Escape(v[1..]), "\"" + rest);
      assert Escape(v) + "\"" + rest == Escape([v[0]]) + t;
      ReadChar(v[0], t);
      assert [v[0]] + v[1..] == v;
    }
  }

  lemma EscapeCons(v: string)
    requires v != []
    ensures Escape(v) == Escape([v[0]]) + Escape(v[1..])
  {
    assert [v[0]][1..] == [];
  }

  lemma AppendAssoc(a: string, b: string, c: string)
    ensures a + b + c == a + (b + c)
  {
  }

  /** Reading one escaped character in front of a readable text. */
  lemma ReadChar(c: char, t: string)
    requires ReadString(t).Some?
    ensures ReadString(Escape([c]) + t) ==
      Some(([c] + ReadString(t).value.0, ReadString(t).value.1))
  {
    if c == '"' || c == '\\' {
      assert Escape([c]) == ['\\', c];
      var e := ['\\', c] + t;
      assert e[0] == '\\' && e[1] == c && e[2..] == t;
    } else {
      assert Escape([c]) == [c];
      var e := [c] + t;
      assert e[0] == c && e[1..] == t;
    }
  }

  /** Strips an expected literal from the front of the text. */
  function Expect(literal: string, s: string): (r: Option<string>)
    ensures r.Some? <==> literal <= s
    ensures r.Some? ==> s == literal + r.value
  {
    if literal <= s then Some(s[|literal|..]) else None
  }

  lemma ExpectLiteral(literal: string, rest: string)
    ensures Expect(literal, literal + rest) == Some(rest)
  {
    assert (literal + rest)[|literal|..] == rest;
  }

  const IdKey: string := "{\"id\":\""
  const EmailKey: string := ",\"email\":\""
  const NameKey: string := ",\"name\":\""
  const ImgKey: string := ",\"profile_img\":\""

  /** `JSON.stringify(user)`: the keys in insertion order, each field
      followed by the rest of the object. */
  function EncodeUser(u: User): (r: string)
    ensures IdKey <= r && r[|r| - 1] == '}'
  {
    IdKey + Escape(u.id) + "\"" +
    (EmailKey + Escape(u.email) + "\"" +
     (NameKey + Escape(u.name) + "\"" + Closing(u)))
  }

  /** What follows the name: the `profile_img` field, omitted when absent,
      then the closing brace. */
  function Closing(u: User): (r: string)
    ensures |r| > 0 && r[|r| - 1] == '}'
  {
    if u.profileImg.Some? then ImgKey + Escape(u.profileImg.value) + "\"" + "}" else "}"
  }

  /** A quoted value after a key: the value and the remaining text. */
  function Field(key: string, s: string): (r: Option<(string, string)>)
    ensures r.Some? ==> key <= s
  {
    match Expect(key, s)
    case None => None
    case Some(t) => ReadString(t)
  }

  lemma FieldRead(key: string, v: string, rest: string)
    ensures Field(key, key + Escape(v) + "\"" + rest) == Some((v, rest))
  {
    var t := Escape(v) + "\"" + rest;
    assert key + Escape(v) + "\"" + rest == key + t;
    ExpectLiteral(key, t);
    assert Field(key, key + t) == ReadString(t);
    ReadEscape(v, rest);
  }

  /** `JSON.parse` of the stored user text; any other text is unreadable. */
  function DecodeUser(s: string): (r: Option<User>)
    ensures r.Some? ==> IdKey <= s
  {
    match Field(IdKey, s)
    case None => None
    case Some(a) =>
      match Field(EmailKey, a.1)
      case None => None
      case Some(b) =>
        match Field(NameKey, b.1)
        case None => None
        case Some(c) =>
          if c.1 == "}" then Some(User(a.0, b.0, c.0, None))
          else match Field(ImgKey, c.1)
            case None => None
            case Some(d) =>
              if d.1 == "}" then Some(User(a.0, b.0, c.0, Some(d.0))) else None
  }

  /** What is stored reads back as the same user. */
  lemma DecodeEncodeUser(u: User)
    ensures DecodeUser(EncodeUser(u)) == Some(u)
  {
    var tail := Closing(u);
    var s3 := NameKey + Escape(u.name) + "\"" + tail;
    var s2 := EmailKey + Escape(u.email) + "\"" + s3;
    FieldRead(IdKey, u.id, s2);
    FieldRead(EmailKey, u.email, s3);
    FieldRead(NameKey, u.name, tail);
    if u.profileImg.Some? {
      FieldRead(ImgKey, u.profileImg.value, "}");
      assert tail != "}" by {
        assert tail[0] == ImgKey[0] == ',';
      }
    }
  }
}
