/**
 * The user record the server returns, and the text it is persisted as.
 * The client writes `JSON.stringify(user)` and reads `JSON.parse(text)`; here a
 * length-prefixed encoding stands in for JSON. What the model relies on is that
 * decoding an encoded user gives the user back, and that decoding arbitrary text
 * can fail (where `JSON.parse` throws).
 */
module Users {
  import opened Wrappers

  /** A user as held in memory: the e-mail always, the full name and the portal type when the server sent them. */
  datatype User = User(email: string, fullName: Option<string>, userType: Option<string>)

  /** `n` length marks. */
  function Marks(n: nat): (r: string)
    ensures |r| == n
    ensures forall i :: 0 <= i < n ==> r[i] == '#'
  {
    if n == 0 then "" else "#" + Marks(n - 1)
  }

  /** The number of leading length marks of `s`. */
  function CountMarks(s: string): (n: nat)
    ensures n <= |s|
    ensures forall i :: 0 <= i < n ==> s[i] == '#'
    ensures n < |s| ==> s[n] != '#'
  {
    if s != [] && s[0] == '#' then 1 + CountMarks(s[1..]) else 0
  }

  /** A string as its length in marks, a colon, and its characters. */
  function EncodeText(t: string): string {
    Marks(|t|) + ":" + t
  }

  /** Reads one encoded string off the front of `s`; yields it and what follows, or fails. */
  function DecodeText(s: string): (r: Option<(string, string)>)
    ensures r.Some? ==> EncodeText(r.value.0) + r.value.1 == s
  {
    var n := CountMarks(s);
    if n < |s| && s[n] == ':' && 2 * n + 1 <= |s| then
      var t, rest := s[n + 1 .. 2 * n + 1], s[2 * n + 1 ..];
      assert Marks(n) == s[..n];
      assert s == s[..n] + [':'] + t + rest;
      Some((t, rest))
    else
      None
  }

  lemma {:induction false} DecodeEncodeText(t: string, rest: string)
    ensures DecodeText(EncodeText(t) + rest) == Some((t, rest))
  {
    var s := EncodeText(t) + rest;
    var n := CountMarks(s);
    assert forall i :: 0 <= i < |t| ==> s[i] == Marks(|t|)[i];
    assert s[|t|] == ':';
    assert n == |t|;
    assert s[n + 1 .. 2 * n + 1] == t;
    assert s[2 * n + 1 ..] == rest;
  }

  function EncodeOption(o: Option<string>): string {
    match o
    case None => "-"
    case Some(t) => "+" + EncodeText(t)
  }

  function DecodeOption(s: string): (r: Option<(Option<string>, string)>)
    ensures r.Some? ==> EncodeOption(r.value.0) + r.value.1 == s
  {
    if s == [] then None
    else if s[0] == '-' then Some((None, s[1..]))
    else if s[0] == '+' then
      match DecodeText(s[1..])
      case None => None
      case Some((t, rest)) =>
        assert s == "+" + (EncodeText(t) + rest);
        Some((Some(t), rest))
    else None
  }

  lemma {:induction false} DecodeEncodeOption(o: Option<string>, rest: string)
    ensures DecodeOption(EncodeOption(o) + rest) == Some((o, rest))
  {
    match o
    case None =>
      assert (EncodeOption(o) + rest)[1..] == rest;
    case Some(t) =>
      var s := EncodeOption(o) + rest;
      assert s[1..] == EncodeText(t) + rest;
      DecodeEncodeText(t, rest);
  }

  /** `JSON.stringify(user)`. */
  function Encode(u: User): string {
    EncodeText(u.email) + EncodeOption(u.fullName) + EncodeOption(u.userType)
  }

  /** `JSON.parse(text)` for a user; `None` where parsing throws. Only encodings are accepted. */
  function Decode(s: string): (r: Option<User>)
    ensures r.Some? ==> Encode(r.value) == s
  {
    match DecodeText(s)
    case None => None
    case Some((email, r1)) =>
      match DecodeOption(r1)
      case None => None
      case Some((name, r2)) =>
        match DecodeOption(r2)
        case None => None
        case Some((ty, r3)) =>
          if r3 == [] then
            assert r2 == EncodeOption(ty);
            Some(User(email, name, ty))
          else None
  }

  /** What is persisted reads back as the same user. */
  lemma {:induction false} DecodeEncode(u: User)
    ensures Decode(Encode(u)) == Some(u)
  {
    var tail := EncodeOption(u.userType);
    var r1 := EncodeOption(u.fullName) + tail;
    assert Encode(u) == EncodeText(u.email) + r1;
    DecodeEncodeText(u.email, r1);
    DecodeEncodeOption(u.fullName, tail);
    assert tail + [] == tail;
    DecodeEncodeOption(u.userType, []);
  }

  /** Serialisation is injective: two users with the same persisted text are the same user. */
  lemma EncodeInjective(u: User, v: User)
    requires Encode(u) == Encode(v)
    ensures u == v
  {
    DecodeEncode(u);
    DecodeEncode(v);
  }

  /** Non-empty text that is not an encoding fails to parse, as `JSON.parse` throws on it. */
  lemma DecodeCanFail()
    ensures Decode("x") == None
    ensures Decode("") == None
  {
  }
}
