/** The name shown at the head of the side menu: the signed-in user's email
    with the school's mail domain replaced by the honorific "さん", so that
    a student address reads as "<student number>さん", or "Guest" when no
    email is known. */
module DisplayName {
  import opened Common

  const SchoolDomain: string := "@jec.ac.jp"
  const Honorific: string := "さん"
  const GuestName: string := "Guest"

  /** Whether `target` occurs in `s` starting at position `i`. */
  predicate OccursAt(s: string, target: string, i: nat) {
    i + |target| <= |s| && s[i..i + |target|] == target
  }

  /** `String.replacingOccurrences(of:with:)`: scanning left to right, each
      occurrence of `target` is replaced and scanning resumes after it, so
      occurrences never overlap. */
  function ReplacingOccurrences(s: string, target: string, replacement: string): string
    requires |target| > 0
    decreases |s|
  {
    if |s| < |target| then s
    else if s[..|target|] == target then replacement + ReplacingOccurrences(s[|target|..], target, replacement)
    else [s[0]] + ReplacingOccurrences(s[1..], target, replacement)
  }

  /** `userData?.email?.replacingOccurrences(of: "@jec.ac.jp", with: "さん") ?? "Guest"`. */
  function MenuName(email: Option<string>): (name: string)
    ensures email.None? ==> name == GuestName
    ensures email.Some? ==> forall i: nat :: !OccursAt(name, SchoolDomain, i)
  {
    match email
    case None => GuestName
    case Some(e) =>
      NoDomainLeft(e);
      ReplacingOccurrences(e, SchoolDomain, Honorific)
  }

  /** The menu name when an identity snapshot may be missing. */
  function MenuNameOf(user: Option<AuthUser>): string {
    match user
    case None => GuestName
    case Some(u) => MenuName(u.email)
  }

  /** A string in which `target` never occurs is left as it is. */
  lemma {:induction false} NoOccurrenceUnchanged(s: string, target: string, replacement: string)
    requires |target| > 0
    requires forall i: nat :: !OccursAt(s, target, i)
    ensures ReplacingOccurrences(s, target, replacement) == s
    decreases |s|
  {
    if |s| >= |target| {
      assert !OccursAt(s, target, 0);
      forall i: nat ensures !OccursAt(s[1..], target, i) {
        assert !OccursAt(s, target, i + 1);
        if i + |target| <= |s| - 1 {
          assert s[1..][i..i + |target|] == s[i + 1..i + 1 + |target|];
        }
      }
      NoOccurrenceUnchanged(s[1..], target, replacement);
      assert s == [s[0]] + s[1..];
    }
  }

  /** A text without an at-sign followed by the school domain becomes that
      text followed by the honorific. */
  lemma {:induction false} PrefixThenDomain(local: string)
    requires '@' !in local
    ensures ReplacingOccurrences(local + SchoolDomain, SchoolDomain, Honorific) == local + Honorific
    decreases |local|
  {
    var s := local + SchoolDomain;
    if local == [] {
      assert s[..|SchoolDomain|] == SchoolDomain;
      assert s[|SchoolDomain|..] == [];
    } else {
      assert s[0] == local[0] != '@';
      assert s[..|SchoolDomain|][0] == s[0];
      assert s[..|SchoolDomain|] != SchoolDomain;
      assert s[1..] == local[1..] + SchoolDomain;
      PrefixThenDomain(local[1..]);
      assert local == [local[0]] + local[1..];
    }
  }

  /** A student address "<number>@jec.ac.jp" is shown as "<number>さん". */
  lemma StudentAddressName(studentNo: string)
    requires '@' !in studentNo
    ensures MenuName(Some(studentNo + SchoolDomain)) == studentNo + Honorific
  {
    PrefixThenDomain(studentNo);
  }

  /** An email without an at-sign is shown unchanged; no email, or no
      identity at all, shows "Guest". */
  lemma OtherNames(email: string)
    requires '@' !in email
    ensures MenuName(Some(email)) == email
    ensures MenuName(None) == GuestName && MenuNameOf(None) == GuestName
  {
    forall i: nat ensures !OccursAt(email, SchoolDomain, i) {
      if i + |SchoolDomain| <= |email| {
        assert email[i..i + |SchoolDomain|][0] == email[i] != '@';
      }
    }
    NoOccurrenceUnchanged(email, SchoolDomain, Honorific);
  }

  /** Characters before the first at-sign are copied unchanged: every
      occurrence of the school domain starts with one. */
  lemma {:induction false} CopiedPrefix(t: string, p: nat)
    requires p <= |t| && '@' !in t[..p]
    ensures ReplacingOccurrences(t, SchoolDomain, Honorific)
      == t[..p] + ReplacingOccurrences(t[p..], SchoolDomain, Honorific)
    decreases p
  {
    if p > 0 {
      assert t[0] == t[..p][0] != '@';
      if |t| < |SchoolDomain| {
        assert |t[p..]| < |SchoolDomain|;
        assert t == t[..p] + t[p..];
      } else {
        assert t[..|SchoolDomain|][0] == t[0];
        assert t[1..][..p - 1] == t[1..p] && t[1..p] == t[..p][1..];
        CopiedPrefix(t[1..], p - 1);
        assert t[1..][p - 1..] == t[p..];
        assert t[..p] == [t[0]] + t[1..p];
      }
    }
  }

  /** The replacement of a text that starts with an at-sign starts with that
      at-sign or with the honorific. */
  lemma AtSignStart(u: string)
    requires |u| > 0 && u[0] == '@'
    ensures var r := ReplacingOccurrences(u, SchoolDomain, Honorific);
      |r| > 0 && (r[0] == '@' || r[0] == Honorific[0])
  {
  }

  /** The position of the first at-sign among the first `m` characters. */
  lemma FirstAtSign(t: string, m: nat) returns (p: nat)
    requires m <= |t| && '@' in t[..m]
    ensures p < m && t[p] == '@' && '@' !in t[..p]
  {
    p := 0;
    while t[p] != '@'
      invariant p < m && '@' !in t[..p]
      invariant '@' in t[p..m]
      decreases m - p
    {
      assert t[p..m] == [t[p]] + t[p + 1..m];
      assert t[..p + 1] == t[..p] + [t[p]];
      p := p + 1;
    }
  }

  /** Whatever the address, the name shown never contains the school
      domain: every occurrence is replaced, and the honorific cannot join
      with the surrounding text into a new one. */
  lemma {:induction false} NoDomainLeft(s: string)
    ensures forall i: nat :: !OccursAt(ReplacingOccurrences(s, SchoolDomain, Honorific), SchoolDomain, i)
    decreases |s|
  {
    var n := |SchoolDomain|;
    if |s| < n {
    } else if s[..n] == SchoolDomain {
      var x := ReplacingOccurrences(s[n..], SchoolDomain, Honorific);
      NoDomainLeft(s[n..]);
      var r := Honorific + x;
      assert ReplacingOccurrences(s, SchoolDomain, Honorific) == r;
      forall i: nat ensures !OccursAt(r, SchoolDomain, i) {
        if i >= 2 {
          assert !OccursAt(x, SchoolDomain, i - 2);
          if i + n <= |r| {
            assert r[i..i + n] == x[i - 2..i - 2 + n];
          }
        } else if i + n <= |r| {
          assert r[i..i + n][0] == r[i] != '@';
        }
      }
    } else {
      var t := s[1..];
      var x := ReplacingOccurrences(t, SchoolDomain, Honorific);
      NoDomainLeft(t);
      var r := [s[0]] + x;
      assert ReplacingOccurrences(s, SchoolDomain, Honorific) == r;
      forall i: nat ensures !OccursAt(r, SchoolDomain, i) {
        if i >= 1 {
          assert !OccursAt(x, SchoolDomain, i - 1);
          if i + n <= |r| {
            assert r[i..i + n] == x[i - 1..i - 1 + n];
          }
        } else if n <= |r| {
          if s[0] != '@' {
            assert r[..n][0] == s[0];
          } else if '@' !in t[..n - 1] {
            CopiedPrefix(t, n - 1);
            assert x[..n - 1] == t[..n - 1];
            assert s[..n] == [s[0]] + t[..n - 1];
            assert r[..n] == [s[0]] + x[..n - 1];
          } else {
            var p := FirstAtSign(t, n - 1);
            CopiedPrefix(t, p);
            AtSignStart(t[p..]);
            assert x[p] == ReplacingOccurrences(t[p..], SchoolDomain, Honorific)[0];
            assert r[..n][p + 1] == x[p];
            assert SchoolDomain[p + 1] != '@' && SchoolDomain[p + 1] != Honorific[0];
          }
        }
      }
    }
  }
}
