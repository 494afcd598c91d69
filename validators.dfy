/** The two client-side format checks applied to a rejected registration.

    Each check is a JavaScript regular expression anchored with `^` and `$` and
    used through `RegExp.prototype.test`, so it accepts a string exactly when the
    whole string is in the pattern's language. A pattern is modelled as a
    sequence of items (a character class taken once, or taken any number of
    times) and `Matches` is the backtracking matcher for such sequences; `x+` is
    written as `x` followed by `x*`. The lemmas characterise both languages at
    the level of single characters.
 */
module Validators {

  /** The character classes that occur in the two patterns. */
  datatype CharClass =
    | Alnum             // [a-zA-Z0-9]
    | UsernameChar      // [a-zA-Z0-9_.-]
    | NotSpaceOrAt      // [^\s@]
    | Exactly(c: char)  // a literal: @ or \.

  /** One element of an anchored pattern. */
  datatype Item = One(cc: CharClass) | Many(cc: CharClass)

  predicate IsAsciiAlnum(c: char) {
    'a' <= c <= 'z' || 'A' <= c <= 'Z' || '0' <= c <= '9'
  }

  predicate IsUsernameChar(c: char) {
    IsAsciiAlnum(c) || c == '_' || c == '.' || c == '-'
  }

  /** The JavaScript `\s` class: the ECMAScript WhiteSpace and LineTerminator
      code points (tab, line tabulation, form feed, the space separators of
      category Zs, the byte order mark, LF, CR, LS and PS). */
  predicate IsSpace(c: char) {
    c == '\t' || c == '\n' || c == '\U{B}' || c == '\U{C}' || c == '\r' ||
    c == ' ' || c == '\U{A0}' || c == '\U{1680}' || '\U{2000}' <= c <= '\U{200A}' ||
    c == '\U{2028}' || c == '\U{2029}' || c == '\U{202F}' || c == '\U{205F}' ||
    c == '\U{3000}' || c == '\U{FEFF}'
  }

  predicate InClass(cc: CharClass, c: char) {
    match cc
    case Alnum => IsAsciiAlnum(c)
    case UsernameChar => IsUsernameChar(c)
    case NotSpaceOrAt => !IsSpace(c) && c != '@'
    case Exactly(d) => c == d
  }

  /** Whether some way of consuming `s` item by item uses up exactly all of `s`. */
  function Matches(p: seq<Item>, s: string): (ok: bool)
    decreases |p|, |s|
  {
    if p == [] then s == []
    else match p[0]
      case One(cc) => |s| > 0 && InClass(cc, s[0]) && Matches(p[1..], s[1..])
      case Many(cc) =>
        Matches(p[1..], s) || (|s| > 0 && InClass(cc, s[0]) && Matches(p, s[1..]))
  }

  /** /^[a-zA-Z0-9][a-zA-Z0-9_.-]*[a-zA-Z0-9]$/ */
  const UsernamePattern: seq<Item> := [One(Alnum), Many(UsernameChar), One(Alnum)]

  /** /^[^\s@]+@[^\s@]+\.[^\s@]+$/ */
  const EmailPattern: seq<Item> :=
    [One(NotSpaceOrAt), Many(NotSpaceOrAt), One(Exactly('@')),
     One(NotSpaceOrAt), Many(NotSpaceOrAt), One(Exactly('.')),
     One(NotSpaceOrAt), Many(NotSpaceOrAt)]

  predicate AllIn(cc: CharClass, s: string) {
    forall i :: 0 <= i < |s| ==> InClass(cc, s[i])
  }

  /** A username the pattern accepts: at least two characters, letters or digits
      at both ends, and only letters, digits, `_`, `.` and `-` throughout. */
  predicate UsernameShape(s: string) {
    |s| >= 2 && IsAsciiAlnum(s[0]) && IsAsciiAlnum(s[|s| - 1]) &&
    forall i :: 0 <= i < |s| ==> IsUsernameChar(s[i])
  }

  predicate NoSpace(s: string) {
    forall i :: 0 <= i < |s| ==> !IsSpace(s[i])
  }

  /** `k` is the only position of `@` in `s`. */
  predicate OnlyAtSignAt(s: string, k: int) {
    forall i :: 0 <= i < |s| && s[i] == '@' ==> i == k
  }

  /** The domain holds a `.` that is neither its first nor its last character. */
  predicate DottedDomain(d: string) {
    exists j :: 0 < j < |d| - 1 && d[j] == '.'
  }

  /** An address the pattern accepts: no white space, exactly one `@` with a
      non-empty part before it, and a dotted domain after it. */
  predicate EmailShape(s: string) {
    NoSpace(s) &&
    exists k :: 0 < k < |s| && s[k] == '@' && OnlyAtSignAt(s, k) && DottedDomain(s[k + 1..])
  }

  /** The username test of RegisterContainer.tsx, line 68. */
  function IsValidUsername(s: string): (ok: bool)
    ensures ok <==> UsernameShape(s)
    ensures |s| < 2 ==> !ok
  {
    UsernameMatchIff(s);
    Matches(UsernamePattern, s)
  }

  /** The email test of RegisterContainer.tsx, line 71. */
  function IsValidEmail(s: string): (ok: bool)
    ensures ok <==> EmailShape(s)
  {
    if Matches(EmailPattern, s) then EmailMatchIsShaped(s); true
    else if EmailShape(s) then ShapedEmailMatches(s); false
    else false
  }

  /** A starred item consumes some prefix of its class, after which the rest
      of the pattern matches. */
  lemma {:induction false} ManyElim(p: seq<Item>, s: string) returns (i: nat)
    requires |p| > 0 && p[0].Many? && Matches(p, s)
    ensures i <= |s| && AllIn(p[0].cc, s[..i]) && Matches(p[1..], s[i..])
    decreases |s|
  {
    if Matches(p[1..], s) {
      i := 0;
    } else {
      var j := ManyElim(p, s[1..]);
      i := j + 1;
      assert s[1..][j..] == s[i..];
      assert s[..i] == [s[0]] + s[1..][..j];
    }
  }

  /** Any prefix drawn from a starred item's class can be consumed by it. */
  lemma {:induction false} ManyIntro(p: seq<Item>, t: string, u: string)
    requires |p| > 0 && p[0].Many? && AllIn(p[0].cc, t) && Matches(p[1..], u)
    ensures Matches(p, t + u)
    decreases |t|
  {
    if t == [] {
      assert t + u == u;
    } else {
      assert AllIn(p[0].cc, t[1..]) by {
        forall i | 0 <= i < |t[1..]| ensures InClass(p[0].cc, t[1..][i]) {
          assert t[1..][i] == t[i + 1];
        }
      }
      ManyIntro(p, t[1..], u);
      assert (t + u)[1..] == t[1..] + u;
    }
  }

  /** `x x*` (that is, `x+`) consumes a non-empty prefix of class `x`. */
  lemma PlusElim(p: seq<Item>, s: string) returns (i: nat)
    requires |p| >= 2 && p[0].One? && p[1] == Many(p[0].cc) && Matches(p, s)
    ensures 1 <= i <= |s| && AllIn(p[0].cc, s[..i]) && Matches(p[2..], s[i..])
  {
    var j := ManyElim(p[1..], s[1..]);
    i := j + 1;
    assert p[1..][1..] == p[2..];
    assert s[1..][j..] == s[i..];
    assert s[..i] == [s[0]] + s[1..][..j];
  }

  lemma PlusIntro(p: seq<Item>, t: string, u: string)
    requires |p| >= 2 && p[0].One? && p[1] == Many(p[0].cc)
    requires |t| >= 1 && AllIn(p[0].cc, t) && Matches(p[2..], u)
    ensures Matches(p, t + u)
  {
    assert p[1..][1..] == p[2..];
    assert AllIn(p[0].cc, t[1..]) by {
      forall i | 0 <= i < |t[1..]| ensures InClass(p[0].cc, t[1..][i]) {
        assert t[1..][i] == t[i + 1];
      }
    }
    ManyIntro(p[1..], t[1..], u);
    assert (t + u)[1..] == t[1..] + u;
  }

  /** The username pattern accepts exactly the strings of `UsernameShape`. */
  lemma UsernameMatchIff(s: string)
    ensures Matches(UsernamePattern, s) <==> UsernameShape(s)
  {
    var p := UsernamePattern;
    assert p[1..] == [Many(UsernameChar), One(Alnum)];
    assert p[1..][1..] == [One(Alnum)];
    if Matches(p, s) {
      var i := ManyElim(p[1..], s[1..]);
      var n := |s|;
      assert n == i + 2;
      forall m | 0 <= m < n ensures IsUsernameChar(s[m]) {
        if 0 < m < n - 1 {
          assert s[m] == s[1..][..i][m - 1];
        }
      }
    }
    if UsernameShape(s) {
      var n := |s|;
      var t, u := s[1..n - 1], [s[n - 1]];
      assert Matches(p[1..][1..], u);
      assert AllIn(UsernameChar, t) by {
        forall m | 0 <= m < |t| ensures IsUsernameChar(t[m]) {
          assert t[m] == s[m + 1];
        }
      }
      ManyIntro(p[1..], t, u);
      assert s[1..] == t + u;
    }
  }

  /** Every string the email pattern accepts has `EmailShape`. */
  lemma EmailMatchIsShaped(s: string)
    requires Matches(EmailPattern, s)
    ensures EmailShape(s)
  {
    var p := EmailPattern;
    var k := PlusElim(p, s);
    assert p[2..][1..] == p[3..];
    assert s[k] == '@' && Matches(p[3..], s[k + 1..]);
    var b := PlusElim(p[3..], s[k + 1..]);
    var j := k + 1 + b;
    assert s[k + 1..][b..] == s[j..];
    assert p[3..][2..] == p[5..];
    assert p[5..][1..] == p[6..];
    assert s[j] == '.' && Matches(p[6..], s[j + 1..]);
    var c := PlusElim(p[6..], s[j + 1..]);
    assert p[6..][2..] == [];
    assert j + 1 + c == |s|;
    forall i | 0 <= i < |s| && i != k && i != j
      ensures InClass(NotSpaceOrAt, s[i])
    {
      if i < k {
        assert s[i] == s[..k][i];
      } else if i < j {
        assert s[i] == s[k + 1..][..b][i - k - 1];
      } else {
        assert s[i] == s[j + 1..][..c][i - j - 1];
      }
    }
    assert s[k + 1..][b] == '.';
  }

  /** Away from the one `@`, a string without white space is drawn from `[^\s@]`. */
  lemma SegmentAvoidsAtSign(s: string, k: int, lo: int, hi: int)
    requires NoSpace(s) && OnlyAtSignAt(s, k)
    requires 0 <= lo <= hi <= |s| && (hi <= k || k < lo)
    ensures AllIn(NotSpaceOrAt, s[lo..hi])
  {
    forall i | 0 <= i < hi - lo ensures InClass(NotSpaceOrAt, s[lo..hi][i]) {
      assert s[lo..hi][i] == s[lo + i];
    }
  }

  /** The part after the dot matches `[^\s@]+`, ending the pattern. */
  lemma TopLevelMatches(s: string, k: int, j: int)
    requires NoSpace(s) && OnlyAtSignAt(s, k) && 0 <= k < j < |s| - 1 && s[j] == '.'
    ensures Matches(EmailPattern[5..], s[j..])
  {
    var p := EmailPattern[5..];
    assert p[1..][2..] == [];
    SegmentAvoidsAtSign(s, k, j + 1, |s|);
    PlusIntro(p[1..], s[j + 1..], []);
    assert s[j + 1..] + [] == s[j + 1..];
    assert s[j..][1..] == s[j + 1..];
  }

  /** The part after the `@` matches `[^\s@]+\.[^\s@]+`. */
  lemma DomainMatches(s: string, k: int, j: int)
    requires NoSpace(s) && OnlyAtSignAt(s, k) && 0 <= k && k + 1 < j < |s| - 1 && s[j] == '.'
    ensures Matches(EmailPattern[3..], s[k + 1..])
  {
    var p := EmailPattern[3..];
    assert p[2..] == EmailPattern[5..];
    TopLevelMatches(s, k, j);
    SegmentAvoidsAtSign(s, k, k + 1, j);
    PlusIntro(p, s[k + 1..j], s[j..]);
    assert s[k + 1..j] + s[j..] == s[k + 1..];
  }

  /** `local@host.top` has `EmailShape` when its three parts are non-empty and
      drawn from `[^\s@]`. */
  lemma EmailFromParts(local: string, host: string, top: string)
    requires |local| > 0 && |host| > 0 && |top| > 0
    requires AllIn(NotSpaceOrAt, local) && AllIn(NotSpaceOrAt, host) && AllIn(NotSpaceOrAt, top)
    ensures EmailShape(local + "@" + host + "." + top)
  {
    var s := local + "@" + host + "." + top;
    var k, j := |local|, |local| + 1 + |host|;
    forall i | 0 <= i < |s| && i != k && i != j ensures InClass(NotSpaceOrAt, s[i]) {
      if i < k {
        assert s[i] == local[i];
      } else if i < j {
        assert s[i] == host[i - k - 1];
      } else {
        assert s[i] == top[i - j - 1];
      }
    }
    assert s[k] == '@' && s[j] == '.';
    assert s[k + 1..][j - k - 1] == '.';
  }

  /** From the `@` on, the string matches `@[^\s@]+\.[^\s@]+`. */
  lemma AtDomainMatches(s: string, k: int, j: int)
    requires NoSpace(s) && OnlyAtSignAt(s, k) && 0 <= k && k + 1 < j < |s| - 1
    requires s[k] == '@' && s[j] == '.'
    ensures Matches(EmailPattern[2..], s[k..])
  {
    DomainMatches(s, k, j);
    assert EmailPattern[2..][1..] == EmailPattern[3..];
    assert s[k..][1..] == s[k + 1..];
  }

  /** Every string of `EmailShape` is accepted by the email pattern. */
  lemma ShapedEmailMatches(s: string)
    requires EmailShape(s)
    ensures Matches(EmailPattern, s)
  {
    var k :| 0 < k < |s| && s[k] == '@' && OnlyAtSignAt(s, k) && DottedDomain(s[k + 1..]);
    var b :| 0 < b < |s[k + 1..]| - 1 && s[k + 1..][b] == '.';
    AtDomainMatches(s, k, k + 1 + b);
    SegmentAvoidsAtSign(s, k, 0, k);
    PlusIntro(EmailPattern, s[..k], s[k..]);
    assert s[..k] + s[k..] == s;
  }
}
