/**
 * The session provider: one optional active user, a `loading` flag for the
 * restore effect, and the `slumber-user` storage key. There is no user list
 * and no credential check; `login` and `signup` build the user from their
 * arguments.
 */
module Auth {
  import opened Wrappers
  import opened Types
  import opened Ids
  import opened Persisted

  /** `email.split('@')[0]`: the text before the first `@`, or all of it. */
  function LocalPart(email: string): (p: string)
    ensures p <= email
    ensures '@' !in p
    ensures |p| < |email| ==> email[|p|] == '@'
  {
    if email == [] || email[0] == '@' then []
    else [email[0]] + LocalPart(email[1..])
  }

  /** Membership in the regular-expression class `\w` (no `u` flag): ASCII letters, digits, `_`. */
  predicate IsWordChar(c: char) {
    ('a' <= c <= 'z') || ('A' <= c <= 'Z') || ('0' <= c <= '9') || c == '_'
  }

  /** `toUpperCase` on a `\w` character: only `a`..`z` change. */
  function UpperWordChar(c: char): (u: char)
    requires IsWordChar(c)
    ensures 'a' <= c <= 'z' ==> 'A' <= u <= 'Z' && u as int == c as int - 32
    ensures !('a' <= c <= 'z') ==> u == c
  {
    if 'a' <= c <= 'z' then (c as int - 32) as char else c
  }

  /** `s.replace(/^\w/, c => c.toUpperCase())`. */
  function CapitalizeFirst(s: string): (r: string)
    ensures |r| == |s|
    ensures s != [] ==> r[1..] == s[1..]
    ensures s != [] && 'a' <= s[0] <= 'z' ==> r[0] as int == s[0] as int - 32
    ensures s != [] && !('a' <= s[0] <= 'z') ==> r[0] == s[0]
  {
    if s != [] && IsWordChar(s[0]) then [UpperWordChar(s[0])] + s[1..] else s
  }

  /** The display name `login` derives from an email address. */
  function DisplayName(email: string): (name: string)
    ensures |name| == |LocalPart(email)| <= |email|
    ensures '@' !in name
    ensures name != [] ==> name[1..] == email[1..|name|]
  {
    CapitalizeFirst(LocalPart(email))
  }

  /** The local part is determined by the three facts `LocalPart` promises. */
  lemma {:induction false} LocalPartUnique(email: string, p: string)
    requires p <= email && '@' !in p && (|p| < |email| ==> email[|p|] == '@')
    ensures p == LocalPart(email)
  {
    if p != [] {
      assert p[0] == email[0];
      assert p[1..] <= email[1..];
      assert '@' !in p[1..] by { forall i | 0 <= i < |p[1..]| ensures p[1..][i] != '@' { assert p[1..][i] == p[i + 1]; } }
      LocalPartUnique(email[1..], p[1..]);
      assert p == [p[0]] + p[1..];
    } else if email != [] {
      assert email[0] == '@';
    }
  }

  /** A lower-case first letter is capitalised; the rest of the local part is kept. */
  lemma DisplayNameCapitalizes()
    ensures DisplayName("alice@hotel.com") == "Alice"
    ensures DisplayName("desk") == "Desk"
  {
    LocalPartUnique("alice@hotel.com", "alice");
    assert LocalPart("alice@hotel.com") == "alice";
    assert CapitalizeFirst("alice") == "Alice";
    LocalPartUnique("desk", "desk");
    assert LocalPart("desk") == "desk";
    assert CapitalizeFirst("desk") == "Desk";
  }

  /** A digit first is left alone, and an address starting with `@` gives the empty name. */
  lemma DisplayNameKeepsNonLetters()
    ensures DisplayName("9lives@x") == "9lives"
    ensures DisplayName("@hotel.com") == ""
  {
    LocalPartUnique("9lives@x", "9lives");
    assert LocalPart("9lives@x") == "9lives";
  }

  /** Where `login` and `signup` send the new user. */
  function HomeFor(role: Role): (target: string)
    ensures target == "/" <==> role == Guest
    ensures target == "/" || target == "/dashboard"
  {
    if role == Guest then "/" else "/dashboard"
  }

  const LoginPath := "/login"

  /** The storage key's value that corresponds to a session. */
  function Mirror(user: Option<User>): Slot<User> {
    match user
    case None => Absent
    case Some(u) => Present(u)
  }

  class Session {
    var user: Option<User>
    var loading: bool
    var saved: Slot<User>

    /**
     * An active user is always the stored one; once restored, the storage
     * holds exactly the session (nothing when signed out).
     */
    ghost predicate Valid()
      reads this
    {
      && (user.Some? ==> saved == Present(user.value))
      && (!loading ==> saved == Mirror(user))
    }

    constructor (initial: Slot<User>)
      ensures Valid()
      ensures user == None && loading && saved == initial
    {
      user := None;
      loading := true;
      saved := initial;
    }

    /** The restore effect: a stored user becomes the session; unreadable data is removed. */
    method Restore()
      requires Valid()
      modifies this
      ensures user == if old(saved).Present? then Some(old(saved).value) else old(user)
      ensures saved == if old(saved).Malformed? then Absent else old(saved)
      ensures !loading && Valid()
    {
      match saved {
        case Present(u) => user := Some(u);
        case Malformed => saved := Absent;
        case Absent =>
      }
      loading := false;
    }

    /** `login`: builds the user from the email, stores it, and returns the redirect target. */
    method Login(email: string, role: Role, stamp: nat) returns (target: string)
      requires Valid()
      modifies this`user, this`saved
      ensures user == Some(User(Decimal(stamp), DisplayName(email), email, role))
      ensures saved == Present(user.value)
      ensures target == HomeFor(role)
      ensures Valid()
    {
      var u := User(Decimal(stamp), DisplayName(email), email, role);
      saved := Present(u);
      user := Some(u);
      target := HomeFor(role);
    }

    /** `signup`: like `login`, but with the given name verbatim. */
    method Signup(name: string, email: string, role: Role, stamp: nat) returns (target: string)
      requires Valid()
      modifies this`user, this`saved
      ensures user == Some(User(Decimal(stamp), name, email, role))
      ensures saved == Present(user.value)
      ensures target == HomeFor(role)
      ensures Valid()
    {
      var u := User(Decimal(stamp), name, email, role);
      saved := Present(u);
      user := Some(u);
      target := HomeFor(role);
    }

    /** `logout`: clears the session and its storage; doing it twice ends in the same state. */
    method Logout() returns (target: string)
      requires Valid()
      modifies this`user, this`saved
      ensures user == None && saved == Absent
      ensures target == LoginPath
      ensures Valid()
    {
      saved := Absent;
      user := None;
      target := LoginPath;
    }
  }
}
