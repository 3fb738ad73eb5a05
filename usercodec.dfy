/** The text form under which the session stores its user record.

    The client writes the record with `JSON.stringify` and reads it back with
    `JSON.parse`. This module gives a concrete self-delimiting encoding in
    place of JSON: every field is written as `+c` for each of its characters
    followed by a `.` terminator. Round trip and non-emptiness are proved.
    Which strings fail to parse differs from `JSON.parse`. */
module UserCodec {
  import opened Types

  function EncodeText(s: string): (r: string)
    ensures |r| == 2 * |s| + 1
  {
    if s == [] then "." else ['+', s[0]] + EncodeText(s[1..])
  }

  /** Reads one encoded field off the front of `s`; returns the field and
      what follows it, or `None` when `s` does not start with an encoded field. */
  function DecodeText(s: string): (r: Option<(string, string)>)
    ensures r.Some? ==> |r.value.1| < |s|
    decreases |s|
  {
    if s == [] then None
    else if s[0] == '.' then Some(("", s[1..]))
    else if s[0] == '+' && |s| >= 2 then
      match DecodeText(s[2..])
      case None => None
      case Some(p) => Some(([s[1]] + p.0, p.1))
    else None
  }

  lemma {:induction false} DecodeEncodeText(t: string, rest: string)
    ensures DecodeText(EncodeText(t) + rest) == Some((t, rest))
    decreases |t|
  {
    if t == [] {
      assert EncodeText(t) + rest == ['.'] + rest;
    } else {
      var e := EncodeText(t) + rest;
      assert e == ['+', t[0]] + (EncodeText(t[1..]) + rest);
      assert e[2..] == EncodeText(t[1..]) + rest;
      DecodeEncodeText(t[1..], rest);
      assert [t[0]] + t[1..] == t;
    }
  }

  function RolText(rol: Rol): (r: string) {
    match rol
    case USER => "USER"
    case ADMIN => "ADMIN"
  }

  function ParseRol(s: string): (r: Option<Rol>)
    ensures r.Some? ==> RolText(r.value) == s
  {
    if s == "USER" then Some(USER)
    else if s == "ADMIN" then Some(ADMIN)
    else None
  }

  /** Stand-in for `JSON.stringify(user)`. */
  function Serialize(u: User): (r: string)
    ensures r != ""
  {
    EncodeText(u.id) + EncodeText(u.username) + EncodeText(u.email) + EncodeText(RolText(u.rol))
  }

  /** Stand-in for `JSON.parse(text)` read as a user record. `None` stands
      for a stored user entry that does not parse. These failures are not
      those of `JSON.parse`. */
  function Deserialize(s: string): (r: Option<User>) {
    match DecodeText(s)
    case None => None
    case Some(p1) =>
      match DecodeText(p1.1)
      case None => None
      case Some(p2) =>
        match DecodeText(p2.1)
        case None => None
        case Some(p3) =>
          match DecodeText(p3.1)
          case None => None
          case Some(p4) =>
            if p4.1 != "" then None
            else match ParseRol(p4.0)
              case None => None
              case Some(rol) => Some(User(p1.0, p2.0, p3.0, rol))
  }

  /** Reading back a stored record gives the record that was stored. */
  lemma DeserializeSerialize(u: User)
    ensures Deserialize(Serialize(u)) == Some(u)
  {
    var a, b, c, d := EncodeText(u.id), EncodeText(u.username), EncodeText(u.email), EncodeText(RolText(u.rol));
    assert Serialize(u) == a + (b + (c + (d + "")));
    DecodeEncodeText(u.id, b + (c + (d + "")));
    DecodeEncodeText(u.username, c + (d + ""));
    DecodeEncodeText(u.email, d + "");
    DecodeEncodeText(RolText(u.rol), "");
  }
}
