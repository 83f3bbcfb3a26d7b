/**
 * The session gate of contexts/AuthContext.tsx: a two-field session
 * (`isAuthenticated`, `username`) mirrored into the browser's key-value
 * store under the keys `isAuthenticated` and `username`.
 *
 * The password test and the username normalisation are pure and are
 * functions here; hydration, login and logout change the session step by
 * step and are methods of the class `AuthProvider`.
 */
module AuthSession {
  import opened Wrappers

  /** The two keys the session is persisted under. */
  const AuthKey: string := "isAuthenticated"
  const NameKey: string := "username"

  /** The stored flag value that restores a session. */
  const StoredTrue: string := "true"

  /** The display name used when no usable name is given or stored. */
  const GuestName: string := "Guest"

  // ---------------------------------------------------------------------
  // The password test `/^\d{4}$/`
  // ---------------------------------------------------------------------

  /** JavaScript's `\d`: the ASCII digits `0`-`9` only, with or without the `u` flag. */
  predicate IsAsciiDigit(c: char) {
    '0' <= c <= '9'
  }

  /**
   * `\d{n}$` tried at the start of `s`: `n` digits, then the end of the
   * input (`$` without the `m` flag matches only there).
   */
  function DigitsThenEnd(s: string, n: nat): (r: bool)
    decreases n
  {
    if n == 0 then s == []
    else s != [] && IsAsciiDigit(s[0]) && DigitsThenEnd(s[1..], n - 1)
  }

  lemma {:induction false} DigitsThenEndExactly(s: string, n: nat)
    ensures DigitsThenEnd(s, n) <==> |s| == n && forall i :: 0 <= i < |s| ==> IsAsciiDigit(s[i])
    decreases n
  {
    if n != 0 && s != [] {
      DigitsThenEndExactly(s[1..], n - 1);
      if |s| == n && forall i :: 0 <= i < |s| ==> IsAsciiDigit(s[i]) {
        assert forall i :: 0 <= i < |s[1..]| ==> IsAsciiDigit(s[1..][i]) by {
          forall i | 0 <= i < |s[1..]| ensures IsAsciiDigit(s[1..][i]) {
            assert s[1..][i] == s[i + 1];
          }
        }
      }
      if DigitsThenEnd(s, n) {
        forall i | 0 <= i < |s| ensures IsAsciiDigit(s[i]) {
          if i > 0 { assert s[i] == s[1..][i - 1]; }
        }
      }
    }
  }

  /** The test `/^\d{4}$/.test(password)`: exactly four ASCII digits. */
  function IsFourDigitPin(password: string): (r: bool)
    ensures r <==> |password| == 4 && forall i :: 0 <= i < 4 ==> IsAsciiDigit(password[i])
  {
    DigitsThenEndExactly(password, 4);
    DigitsThenEnd(password, 4)
  }

  // ---------------------------------------------------------------------
  // `String.prototype.trim`
  // ---------------------------------------------------------------------

  /**
   * The characters `trim` removes: ECMAScript's WhiteSpace (tab, vertical
   * tab, form feed, space, no-break space, the byte order mark and the
   * Unicode space separators) and LineTerminator (line feed, carriage
   * return, line and paragraph separators).
   */
  const WhitespaceChars: set<char> := {
    '\t', '\n', '\U{B}', '\U{C}', '\r', ' ', '\U{A0}', '\U{1680}',
    '\U{2000}', '\U{2001}', '\U{2002}', '\U{2003}', '\U{2004}', '\U{2005}',
    '\U{2006}', '\U{2007}', '\U{2008}', '\U{2009}', '\U{200A}',
    '\U{2028}', '\U{2029}', '\U{202F}', '\U{205F}', '\U{3000}', '\U{FEFF}'
  }

  predicate IsWhitespace(c: char) {
    c in WhitespaceChars
  }

  /** Every character of `s` is whitespace (the empty string included). */
  predicate AllWhitespace(s: string) {
    forall i :: 0 <= i < |s| ==> IsWhitespace(s[i])
  }

  /** Drops the leading whitespace: what is left is a suffix of `s`. */
  function TrimStart(s: string): (r: string)
    ensures |r| <= |s| && r == s[|s| - |r|..]
    ensures forall i :: 0 <= i < |s| - |r| ==> IsWhitespace(s[i])
    ensures r != [] ==> !IsWhitespace(r[0])
    decreases |s|
  {
    if s != [] && IsWhitespace(s[0]) then TrimStart(s[1..]) else s
  }

  /** Drops the trailing whitespace: what is left is a prefix of `s`. */
  function TrimEnd(s: string): (r: string)
    ensures |r| <= |s| && r == s[..|r|]
    ensures forall i :: |r| <= i < |s| ==> IsWhitespace(s[i])
    ensures r != [] ==> !IsWhitespace(r[|r| - 1])
    decreases |s|
  {
    if s != [] && IsWhitespace(s[|s| - 1]) then TrimEnd(s[..|s| - 1]) else s
  }

  /**
   * `s[lo..hi]` is what trimming `s` leaves: only whitespace outside it,
   * and neither end of it is whitespace.
   */
  ghost predicate TrimmedAt(s: string, lo: int, hi: int)
    requires 0 <= lo <= hi <= |s|
  {
    && (forall i :: 0 <= i < lo ==> IsWhitespace(s[i]))
    && (forall i :: hi <= i < |s| ==> IsWhitespace(s[i]))
    && (lo < hi ==> !IsWhitespace(s[lo]) && !IsWhitespace(s[hi - 1]))
  }

  /** `r` is the result of trimming `s`, stated without computing it. */
  ghost predicate IsTrimOf(r: string, s: string) {
    exists lo, hi :: 0 <= lo <= hi <= |s| && TrimmedAt(s, lo, hi) && r == s[lo..hi]
  }

  /**
   * Dropping whitespace from the start (leaving `t`) and then from the end
   * (leaving `r`) leaves the slice `TrimmedAt` describes.
   */
  lemma StartThenEndIsTrimmed(s: string, t: string, r: string)
    requires |t| <= |s| && t == s[|s| - |t|..]
    requires forall i :: 0 <= i < |s| - |t| ==> IsWhitespace(s[i])
    requires t != [] ==> !IsWhitespace(t[0])
    requires |r| <= |t| && r == t[..|r|]
    requires forall i :: |r| <= i < |t| ==> IsWhitespace(t[i])
    requires r != [] ==> !IsWhitespace(r[|r| - 1])
    ensures IsTrimOf(r, s)
    ensures r == [] <==> AllWhitespace(s)
    ensures r != [] ==> !IsWhitespace(r[0]) && !IsWhitespace(r[|r| - 1])
  {
    var lo := |s| - |t|;
    var hi := lo + |r|;
    forall k | 0 <= k < |r| ensures r[k] == s[lo + k] {
      assert r[k] == t[k];
    }
    forall i | hi <= i < |s| ensures IsWhitespace(s[i]) {
      assert s[i] == t[i - lo];
    }
    assert TrimmedAt(s, lo, hi) && r == s[lo..hi];
  }

  /** `s.trim()`. */
  function Trim(s: string): (r: string)
    ensures IsTrimOf(r, s)
    ensures r == [] <==> AllWhitespace(s)
    ensures r != [] ==> !IsWhitespace(r[0]) && !IsWhitespace(r[|r| - 1])
  {
    StartThenEndIsTrimmed(s, TrimStart(s), TrimEnd(TrimStart(s)));
    TrimEnd(TrimStart(s))
  }

  /** Trimming has exactly one possible result. */
  lemma TrimOfIsUnique(s: string, r1: string, r2: string)
    requires IsTrimOf(r1, s) && IsTrimOf(r2, s)
    ensures r1 == r2
  {
    var lo1, hi1 :| 0 <= lo1 <= hi1 <= |s| && TrimmedAt(s, lo1, hi1) && r1 == s[lo1..hi1];
    var lo2, hi2 :| 0 <= lo2 <= hi2 <= |s| && TrimmedAt(s, lo2, hi2) && r2 == s[lo2..hi2];
    if lo1 < hi1 && lo2 < hi2 {
      // each bound is pinned down by a non-whitespace end the other keeps
      assert lo1 == lo2 && hi1 == hi2;
    }
  }

  /** A string with no whitespace at either end (the empty one included) is kept as it is. */
  lemma {:induction false} TrimKeepsBareString(s: string)
    requires s != [] ==> !IsWhitespace(s[0]) && !IsWhitespace(s[|s| - 1])
    ensures Trim(s) == s
  {
    assert TrimmedAt(s, 0, |s|) && s == s[0..|s|];
    TrimOfIsUnique(s, Trim(s), s);
  }

  /** Trimming twice is trimming once. */
  lemma {:induction false} TrimIdempotent(s: string)
    ensures Trim(Trim(s)) == Trim(s)
  {
    var r := Trim(s);
    assert TrimStart(r) == r;
    assert TrimEnd(r) == r;
  }

  /** `inputUsername.trim() || 'Guest'`. */
  function FinalUsername(inputUsername: string): (r: string)
    ensures r != []
    ensures AllWhitespace(inputUsername) ==> r == GuestName
    ensures !AllWhitespace(inputUsername) ==> IsTrimOf(r, inputUsername)
  {
    var trimmed := Trim(inputUsername);
    if trimmed == "" then GuestName else trimmed
  }

  // ---------------------------------------------------------------------
  // The persisted store
  // ---------------------------------------------------------------------

  /** `localStorage.getItem(key)`: `None` stands for `null`. */
  function Lookup(storage: map<string, string>, key: string): (r: Option<string>)
    ensures r.Some? <==> key in storage
    ensures r.Some? ==> r.value == storage[key]
  {
    if key in storage then Some(storage[key]) else None
  }

  /**
   * What hydration restores from `storage`: `Some(name)` when the stored
   * flag is exactly "true", where `name` is the stored name or, when that
   * is absent or empty, the guest name; `None` when nothing is restored.
   */
  function RestoredName(storage: map<string, string>): (r: Option<string>)
    ensures r.Some? <==> AuthKey in storage && storage[AuthKey] == StoredTrue
    ensures r.Some? ==> r.value != ""
    ensures r.Some? && NameKey in storage && storage[NameKey] != "" ==> r.value == storage[NameKey]
    ensures r.Some? && (NameKey !in storage || storage[NameKey] == "") ==> r.value == GuestName
  {
    var savedAuth := Lookup(storage, AuthKey);
    var savedUsername := Lookup(storage, NameKey);
    if savedAuth == Some(StoredTrue) then
      Some(if savedUsername.Some? && savedUsername.value != "" then savedUsername.value else GuestName)
    else
      None
  }

  /** The store a successful login leaves behind. */
  function LoggedInStorage(storage: map<string, string>, name: string): (r: map<string, string>)
    ensures r.Keys == storage.Keys + {AuthKey, NameKey}
    ensures r[AuthKey] == StoredTrue && r[NameKey] == name
    ensures forall k :: k in storage && k != AuthKey && k != NameKey ==> r[k] == storage[k]
  {
    storage[AuthKey := StoredTrue][NameKey := name]
  }

  /** The store a logout leaves behind. */
  function LoggedOutStorage(storage: map<string, string>): (r: map<string, string>)
    ensures r.Keys == storage.Keys - {AuthKey, NameKey}
    ensures forall k :: k in r ==> r[k] == storage[k]
  {
    storage - {AuthKey, NameKey}
  }

  /** Reloading after a login restores the name the login chose. */
  lemma RestoreAfterLogin(storage: map<string, string>, inputUsername: string)
    ensures RestoredName(LoggedInStorage(storage, FinalUsername(inputUsername))) == Some(FinalUsername(inputUsername))
  {
  }

  /** Reloading after a logout restores nothing. */
  lemma RestoreAfterLogout(storage: map<string, string>)
    ensures RestoredName(LoggedOutStorage(storage)) == None
  {
  }

  /** The session as the provider exposes it, with the store beside it. */
  datatype Snapshot = Snapshot(authenticated: bool, username: string, storage: map<string, string>)

  // ---------------------------------------------------------------------
  // The provider
  // ---------------------------------------------------------------------

  class AuthProvider {
    var isAuthenticated: bool
    var username: string
    /** The browser's `localStorage`, as this session sees it. */
    var storage: map<string, string>

    function State(): (s: Snapshot)
      reads this
    {
      Snapshot(isAuthenticated, username, storage)
    }

    /** The provider's initial state, `useState(false)` and `useState('')`. */
    constructor (persisted: map<string, string>)
      ensures !isAuthenticated && username == "" && storage == persisted
    {
      isAuthenticated := false;
      username := "";
      storage := persisted;
    }

    /** The mount effect: restore a persisted session, if there is one. */
    method Hydrate()
      modifies this
      ensures storage == old(storage)
      ensures RestoredName(storage).Some? ==> isAuthenticated && username == RestoredName(storage).value
      ensures RestoredName(storage).None? ==> isAuthenticated == old(isAuthenticated) && username == old(username)
    {
      var restored := RestoredName(storage);
      if restored.Some? {
        isAuthenticated := true;
        username := restored.value;
      }
    }

    method Login(inputUsername: string, password: string) returns (ok: bool)
      modifies this
      ensures ok <==> IsFourDigitPin(password)
      ensures !ok ==> State() == old(State())
      ensures ok ==> isAuthenticated && username == FinalUsername(inputUsername)
      ensures ok ==> storage == LoggedInStorage(old(storage), username)
    {
      if !IsFourDigitPin(password) {
        return false;
      }
      var finalUsername := FinalUsername(inputUsername);
      isAuthenticated := true;
      username := finalUsername;
      storage := storage[AuthKey := StoredTrue];
      storage := storage[NameKey := finalUsername];
      return true;
    }

    method Logout()
      modifies this
      ensures !isAuthenticated && username == ""
      ensures storage == LoggedOutStorage(old(storage))
      ensures AuthKey !in storage && NameKey !in storage
    {
      isAuthenticated := false;
      username := "";
      storage := storage - {AuthKey};
      storage := storage - {NameKey};
    }
  }

  // ---------------------------------------------------------------------
  // Sessions across a reload
  // ---------------------------------------------------------------------

  /**
   * A session hydrated from `persisted` logs in, the page reloads, and a
   * fresh session hydrates from the store the first one left.
   */
  method LoginThenReload(persisted: map<string, string>, inputUsername: string, password: string)
    returns (ok: bool, before: Snapshot, after: Snapshot)
    ensures ok <==> IsFourDigitPin(password)
    ensures ok ==> before.authenticated && before.username == FinalUsername(inputUsername)
    ensures ok ==> after.authenticated == before.authenticated && after.username == before.username
    ensures after.storage == before.storage
  {
    var session := new AuthProvider(persisted);
    session.Hydrate();
    ok := session.Login(inputUsername, password);
    before := session.State();
    var reloaded := new AuthProvider(session.storage);
    reloaded.Hydrate();
    after := reloaded.State();
  }

  /** The same with a logout in place of the login. */
  method LogoutThenReload(persisted: map<string, string>)
    returns (before: Snapshot, after: Snapshot)
    ensures !before.authenticated && before.username == ""
    ensures after == before
  {
    var session := new AuthProvider(persisted);
    session.Hydrate();
    session.Logout();
    before := session.State();
    var reloaded := new AuthProvider(session.storage);
    reloaded.Hydrate();
    after := reloaded.State();
  }

  /**
   * Logout from any reachable session (hydrated, then possibly logged
   * in), twice: the second call changes nothing.
   */
  method LogoutTwice(persisted: map<string, string>, inputUsername: string, password: string)
    returns (first: Snapshot, second: Snapshot)
    ensures !first.authenticated && first.username == ""
    ensures AuthKey !in first.storage && NameKey !in first.storage
    ensures second == first
  {
    var session := new AuthProvider(persisted);
    session.Hydrate();
    var _ := session.Login(inputUsername, password);
    session.Logout();
    first := session.State();
    session.Logout();
    second := session.State();
  }

  /** The PINs of the login scenarios. */
  lemma ScenarioPins()
    ensures IsFourDigitPin("1234") && IsFourDigitPin("0000") && !IsFourDigitPin("12a4")
  {
    assert !IsAsciiDigit("12a4"[2]);
  }

  /** A typed name with no surrounding whitespace is the session's name. */
  lemma BareNameKept(name: string)
    requires name != [] && !IsWhitespace(name[0]) && !IsWhitespace(name[|name| - 1])
    ensures FinalUsername(name) == name
  {
    TrimKeepsBareString(name);
  }

  /** The names of the login scenarios. */
  lemma ScenarioNames()
    ensures FinalUsername("alice") == "alice"
    ensures FinalUsername("") == GuestName
  {
    BareNameKept("alice");
  }

  /**
   * The login scenarios: a good PIN, a PIN with a letter (which leaves the
   * session as it was), an empty name.
   */
  method LoginExamples() returns (alice: Snapshot, rejected: bool, afterRefusal: Snapshot, guest: Snapshot)
    ensures alice.authenticated && alice.username == "alice"
    ensures rejected && afterRefusal == alice
    ensures guest.authenticated && guest.username == GuestName
  {
    ScenarioPins();
    ScenarioNames();
    var session := new AuthProvider(map[]);
    var _ := session.Login("alice", "1234");
    alice := session.State();
    var ok := session.Login("alice", "12a4");
    rejected := !ok;
    afterRefusal := session.State();
    var _ := session.Login("", "0000");
    guest := session.State();
  }
}
