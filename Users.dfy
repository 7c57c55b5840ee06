/**
 * The user record of lib/auth.ts and the text form in which the
 * credential store persists it.
 *
 * The source persists a user with `JSON.stringify` and reads it back with
 * `JSON.parse`.  JSON text is not modelled; in its place stands a
 * self-delimiting encoding (each string is preceded by its length in unary)
 * with the two properties the session code relies on: decoding an encoded
 * user gives the user back, and an encoded user is never the empty string.
 */
module Users {
  import opened Wrappers

  /** A user as the backend returns it. `role` is the raw tag the server sent. */
  datatype User = User(
    id: int,
    name: string,
    email: string,
    role: string,
    avatar: Option<string>,
    createdAt: string)

  /** The closed set of roles the interface switches on, plus "anything else". */
  datatype Role = Admin | Instructor | Student | Unrecognized

  const AdminTag := "admin"
  const InstructorTag := "instructor"
  const StudentTag := "student"

  /** Classifies a role tag by exact string comparison, as every view does. */
  function RoleOf(tag: string): (r: Role)
    ensures r == Admin <==> tag == AdminTag
    ensures r == Instructor <==> tag == InstructorTag
    ensures r == Student <==> tag == StudentTag
  {
    if tag == AdminTag then Admin
    else if tag == InstructorTag then Instructor
    else if tag == StudentTag then Student
    else Unrecognized
  }

  // ---------------------------------------------------------------------
  // Text encoding
  // ---------------------------------------------------------------------

  const Mark := '#'
  const Sep := ':'

  /** `n` marks in a row. */
  function Unary(n: nat): (s: string)
    ensures |s| == n
    ensures forall i :: 0 <= i < n ==> s[i] == Mark
  {
    seq(n, _ => Mark)
  }

  /** The number of marks `t` starts with. */
  function LeadingMarks(t: string): (n: nat)
    ensures n <= |t|
    ensures forall i :: 0 <= i < n ==> t[i] == Mark
    ensures n < |t| ==> t[n] != Mark
  {
    if |t| > 0 && t[0] == Mark then 1 + LeadingMarks(t[1..]) else 0
  }

  /** A string field: its length in unary, a separator, then the characters. */
  function StrField(s: string): (field: string) {
    Unary(|s|) + [Sep] + s
  }

  /** An integer field: a sign, the magnitude in unary, a separator. */
  function IntField(i: int): (field: string) {
    [if i < 0 then '-' else '+'] + Unary(if i < 0 then -i else i) + [Sep]
  }

  /** An optional string field: '0' when absent, '1' and the string when present. */
  function OptField(o: Option<string>): (field: string) {
    match o
    case None => ['0']
    case Some(s) => ['1'] + StrField(s)
  }

  /** Reads a string field off the front of `t`, returning it and what follows. */
  function ReadStr(t: string): (read: Option<(string, string)>) {
    var n := LeadingMarks(t);
    if n < |t| && t[n] == Sep && 2 * n + 1 <= |t| then Some((t[n + 1..2 * n + 1], t[2 * n + 1..]))
    else None
  }

  /** Reads an integer field off the front of `t`. */
  function ReadInt(t: string): (read: Option<(int, string)>) {
    if |t| == 0 || (t[0] != '-' && t[0] != '+') then None
    else
      var n := LeadingMarks(t[1..]);
      var magnitude: int := n;
      if n + 1 < |t| && t[n + 1] == Sep then Some((if t[0] == '-' then -magnitude else magnitude, t[n + 2..]))
      else None
  }

  /** Reads an optional string field off the front of `t`. */
  function ReadOpt(t: string): (read: Option<(Option<string>, string)>) {
    if |t| == 0 then None
    else if t[0] == '0' then Some((None, t[1..]))
    else if t[0] == '1' then
      match ReadStr(t[1..])
      case Some((s, rest)) => Some((Some(s), rest))
      case None => None
    else None
  }

  /** The persisted text of a user (the stand-in for `JSON.stringify`). */
  function EncodeUser(u: User): (t: string)
    ensures |t| > 0
  {
    IntField(u.id) + (StrField(u.name) + (StrField(u.email) + (StrField(u.role)
      + (OptField(u.avatar) + StrField(u.createdAt)))))
  }

  /** Parses persisted text back into a user; `None` when the text is not a
      well-formed encoding (where `JSON.parse` would throw). */
  function DecodeUser(t: string): (u: Option<User>)
    ensures t == [] ==> u.None?
  {
    match ReadInt(t)
    case None => None
    case Some((id, t1)) =>
      match ReadStr(t1)
      case None => None
      case Some((name, t2)) =>
        match ReadStr(t2)
        case None => None
        case Some((email, t3)) =>
          match ReadStr(t3)
          case None => None
          case Some((role, t4)) =>
            match ReadOpt(t4)
            case None => None
            case Some((avatar, t5)) =>
              match ReadStr(t5)
              case None => None
              case Some((createdAt, t6)) =>
                if t6 == [] then Some(User(id, name, email, role, avatar, createdAt)) else None
  }

  /** `LeadingMarks` stops exactly at the separator after `n` marks. */
  lemma MarksBeforeSep(n: nat, rest: string)
    ensures LeadingMarks(Unary(n) + [Sep] + rest) == n
  {
    var t := Unary(n) + [Sep] + rest;
    var m := LeadingMarks(t);
    assert t[n] == Sep;
  }

  lemma ReadStrField(s: string, rest: string)
    ensures ReadStr(StrField(s) + rest) == Some((s, rest))
  {
    var n := |s|;
    var t := StrField(s) + rest;
    assert t == Unary(n) + [Sep] + (s + rest);
    MarksBeforeSep(n, s + rest);
    assert t[n + 1..2 * n + 1] == s;
    assert t[2 * n + 1..] == rest;
  }

  lemma ReadIntField(i: int, rest: string)
    ensures ReadInt(IntField(i) + rest) == Some((i, rest))
  {
    var n := if i < 0 then -i else i;
    var t := IntField(i) + rest;
    assert t[1..] == Unary(n) + [Sep] + rest;
    MarksBeforeSep(n, rest);
    assert t[n + 2..] == rest;
  }

  lemma ReadOptField(o: Option<string>, rest: string)
    ensures ReadOpt(OptField(o) + rest) == Some((o, rest))
  {
    var t := OptField(o) + rest;
    match o
    case None =>
      assert t[0] == '0' && t[1..] == rest;
    case Some(s) =>
      assert t[0] == '1' && t[1..] == StrField(s) + rest;
      ReadStrField(s, rest);
  }

  /** Decoding an encoded user gives the same user back. */
  lemma DecodeEncode(u: User)
    ensures DecodeUser(EncodeUser(u)) == Some(u)
  {
    var t5 := StrField(u.createdAt);
    var t4 := OptField(u.avatar) + t5;
    var t3 := StrField(u.role) + t4;
    var t2 := StrField(u.email) + t3;
    var t1 := StrField(u.name) + t2;
    ReadIntField(u.id, t1);
    ReadStrField(u.name, t2);
    ReadStrField(u.email, t3);
    ReadStrField(u.role, t4);
    ReadOptField(u.avatar, t5);
    ReadStrField(u.createdAt, []);
    assert t5 + [] == t5;
  }

  /** Two users with the same persisted text are the same user. */
  lemma EncodeInjective(u: User, v: User)
    requires EncodeUser(u) == EncodeUser(v)
    ensures u == v
  {
    DecodeEncode(u);
    DecodeEncode(v);
  }
}
