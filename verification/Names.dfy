/**
  File names of the cache directory: the header sanitiser, the blob name with
  its backend signature, and the scratch and sidecar suffixes.
 */
module Names {
  import opened Positions

  // ------------------------------------------------------------ suffixes

  predicate EndsWith(s: string, suffix: string) {
    |suffix| <= |s| && s[|s| - |suffix|..] == suffix
  }

  function StripSuffix(s: string, suffix: string): (r: string)
    requires EndsWith(s, suffix)
    ensures s == r + suffix
  {
    s[..|s| - |suffix|]
  }

  lemma CharFromEnd(s: string, suffix: string, j: nat)
    requires EndsWith(s, suffix) && 0 < j <= |suffix|
    ensures s[|s| - j] == suffix[|suffix| - j]
  {
    assert s[|s| - |suffix|..][|suffix| - j] == s[|s| - j];
  }

  lemma AppendEndsWith(s: string, suffix: string)
    ensures EndsWith(s + suffix, suffix)
    ensures StripSuffix(s + suffix, suffix) == s
  {
    assert (s + suffix)[|s|..] == suffix;
    assert (s + suffix)[..|s|] == s;
  }

  // ------------------------------------------------------------ sanitize

  const MAX_KEY := 96
  const DEFAULT_KEY := "session"

  predicate AllowedChar(c: char) {
    'a' <= c <= 'z' || 'A' <= c <= 'Z' || '0' <= c <= '9' || c == '.' || c == '_' || c == '-'
  }

  predicate Allowed(s: string) {
    forall i | 0 <= i < |s| :: AllowedChar(s[i])
  }

  function MapChars(s: string): (r: string)
    ensures |r| == |s| && Allowed(r)
    ensures Allowed(s) ==> r == s
  {
    seq(|s|, i requires 0 <= i < |s| => if AllowedChar(s[i]) then s[i] else '-')
  }

  predicate DotsAt(s: string, i: int) {
    0 <= i < |s| - 1 && s[i] == '.' && s[i + 1] == '.'
  }

  predicate HasDots(s: string) {
    exists i | 0 <= i < |s| :: DotsAt(s, i)
  }

  // One call of `replace("..", ".")`: left to right, matches do not overlap.
  function ReplaceDots(s: string): (r: string)
    ensures |r| <= |s|
    ensures s == "" <==> r == ""
    ensures s != "" ==> r[0] == s[0]
    ensures Allowed(s) ==> Allowed(r)
  {
    if |s| < 2 then s
    else if s[0] == '.' && s[1] == '.' then "." + ReplaceDots(s[2..])
    else [s[0]] + ReplaceDots(s[1..])
  }

  lemma {:induction false} ReplaceDotsShrinks(s: string)
    requires HasDots(s)
    ensures |ReplaceDots(s)| < |s|
  {
    if !(s[0] == '.' && s[1] == '.') {
      var i :| 0 <= i < |s| && DotsAt(s, i);
      assert DotsAt(s[1..], i - 1);
      ReplaceDotsShrinks(s[1..]);
    }
  }

  // The closed form: every run of dots becomes one dot, in a single pass.
  function CollapseDots(s: string): (r: string)
    ensures |r| <= |s|
    ensures s == "" <==> r == ""
    ensures s != "" ==> r[0] == s[0]
    ensures Allowed(s) ==> Allowed(r)
  {
    if |s| < 2 then s
    else if s[0] == '.' && s[1] == '.' then CollapseDots(s[1..])
    else [s[0]] + CollapseDots(s[1..])
  }

  lemma {:induction false} CollapseIgnoresReplace(s: string)
    ensures CollapseDots(ReplaceDots(s)) == CollapseDots(s)
  {
    if |s| < 2 {
    } else if s[0] == '.' && s[1] == '.' {
      var t := s[2..];
      CollapseIgnoresReplace(t);
      assert s[1..][1..] == t;
      assert ("." + ReplaceDots(t))[1..] == ReplaceDots(t);
      if t == "" {
        assert CollapseDots(s[1..]) == ".";
      } else {
        assert s[1..] == "." + t;
      }
    } else {
      CollapseIgnoresReplace(s[1..]);
      var r := ReplaceDots(s[1..]);
      assert ([s[0]] + r)[1..] == r;
    }
  }

  lemma {:induction false} CollapseHasNoDots(s: string)
    ensures !HasDots(CollapseDots(s))
  {
    if |s| >= 2 {
      CollapseHasNoDots(s[1..]);
      if !(s[0] == '.' && s[1] == '.') {
        var r := CollapseDots(s[1..]);
        forall i | 0 <= i < |r| + 1 ensures !DotsAt([s[0]] + r, i) {
          if i > 0 {
            assert !DotsAt(r, i - 1);
          }
        }
      }
    }
  }

  lemma {:induction false} CollapseFixesDotFree(s: string)
    requires !HasDots(s)
    ensures CollapseDots(s) == s
  {
    if |s| >= 2 {
      assert !DotsAt(s, 0);
      forall i | 0 <= i < |s| - 1 ensures !DotsAt(s[1..], i) {
        assert !DotsAt(s, i + 1);
      }
      CollapseFixesDotFree(s[1..]);
    }
  }

  function Truncate(s: string, n: nat): string {
    if |s| <= n then s else s[..n]
  }

  function SanitizeSpec(s: string): string {
    var t := Truncate(CollapseDots(MapChars(s)), MAX_KEY);
    if t == "" then DEFAULT_KEY else t
  }

  /** The loop of the source computes the one-pass closed form. */
  method Sanitize(s: string) returns (out: string)
    ensures out == SanitizeSpec(s)
  {
    out := MapChars(s);
    while HasDots(out)
      invariant CollapseDots(out) == CollapseDots(MapChars(s))
      decreases |out|
    {
      ReplaceDotsShrinks(out);
      CollapseIgnoresReplace(out);
      out := ReplaceDots(out);
    }
    CollapseFixesDotFree(out);
    out := Truncate(out, MAX_KEY);
    if out == "" {
      out := DEFAULT_KEY;
    }
  }

  predicate SafeKey(s: string) {
    0 < |s| <= MAX_KEY && Allowed(s) && !HasDots(s)
  }

  lemma SanitizeIsSafe(s: string)
    ensures SafeKey(SanitizeSpec(s))
  {
    var c := CollapseDots(MapChars(s));
    CollapseHasNoDots(MapChars(s));
    var t := Truncate(c, MAX_KEY);
    forall i | 0 <= i < |t| ensures !DotsAt(t, i) {
      assert !DotsAt(c, i);
    }
  }

  /** Exactly the safe keys are left alone. */
  lemma SanitizeFixpoints(s: string)
    ensures SanitizeSpec(s) == s <==> SafeKey(s)
  {
    if SafeKey(s) {
      CollapseFixesDotFree(s);
    }
    SanitizeIsSafe(s);
  }

  lemma SanitizeIdempotent(s: string)
    ensures SanitizeSpec(SanitizeSpec(s)) == SanitizeSpec(s)
  {
    SanitizeIsSafe(s);
    SanitizeFixpoints(SanitizeSpec(s));
  }

  // ------------------------------------------------ character by character

  /** What becomes of one character of a header. */
  function Cleaned(c: char): char {
    if 'a' <= c <= 'z' || 'A' <= c <= 'Z' || '0' <= c <= '9' || c in {'.', '_', '-'} then c else '-'
  }

  // Of a run of dots the last one stays; every other character stays.
  predicate Stays(s: string, i: int) {
    0 <= i < |s| && !(s[i] == '.' && i + 1 < |s| && s[i + 1] == '.')
  }

  /** `at` lists, in order, exactly the positions of `s` that stay. */
  ghost predicate ListsStaying(s: string, at: seq<nat>) {
    Increasing(at) && forall i: nat :: i in at <==> Stays(s, i)
  }

  function Staying(s: string): seq<nat> {
    if s == "" then [] else Prepend(Stays(s, 0), Staying(s[1..]))
  }

  lemma {:induction false} StayingLists(s: string)
    ensures ListsStaying(s, Staying(s))
  {
    if s != "" {
      StayingLists(s[1..]);
      PrependFacts(Stays(s, 0), Staying(s[1..]));
      forall i: nat ensures i in Staying(s) <==> Stays(s, i) {
        PrependMember(Stays(s, 0), Staying(s[1..]), i);
        assert i > 0 ==> (Stays(s, i) <==> Stays(s[1..], i - 1));
      }
    }
  }

  lemma {:induction false} CollapseKeepsStaying(s: string)
    ensures |CollapseDots(s)| == |Staying(s)|
    ensures forall j | 0 <= j < |Staying(s)| :: Staying(s)[j] < |s| && CollapseDots(s)[j] == s[Staying(s)[j]]
  {
    if s != "" {
      var head, rest := Stays(s, 0), Staying(s[1..]);
      CollapseKeepsStaying(s[1..]);
      StayingLists(s[1..]);
      PrependFacts(head, rest);
      var c, tail := CollapseDots(s), CollapseDots(s[1..]);
      assert c == if head then [s[0]] + tail else tail;
      forall j | 0 <= j < |Staying(s)| ensures Staying(s)[j] < |s| && c[j] == s[Staying(s)[j]] {
        var k := From(head, j);
        if k >= 0 {
          assert Staying(s)[j] == rest[k] + 1 && c[j] == tail[k];
        }
      }
    }
  }

  /**
    A sanitised header, character by character: each character cleaned, of each run
    of dots one kept, cut after 96; and "session" for the empty header.
   */
  lemma SanitizeText(s: string, at: seq<nat>)
    requires ListsStaying(s, at)
    ensures s == "" ==> SanitizeSpec(s) == "session"
    ensures s != "" ==>
              && |SanitizeSpec(s)| == (if |at| < 96 then |at| else 96)
              && forall j | 0 <= j < |SanitizeSpec(s)| :: at[j] < |s| && SanitizeSpec(s)[j] == Cleaned(s[at[j]])
  {
    var m := MapChars(s);
    forall i | 0 <= i < |s| ensures m[i] == Cleaned(s[i]) {
    }
    forall i: nat ensures i in at <==> i in Staying(m) {
      assert Stays(s, i) <==> Stays(m, i);
      StayingLists(m);
    }
    StayingLists(m);
    SameIncreasing(at, Staying(m));
    CollapseKeepsStaying(m);
  }

  /** A header without ".." of at most 96 characters keeps every position. */
  lemma SanitizeShortText(s: string)
    requires 0 < |s| <= 96 && forall i | 0 <= i < |s| - 1 :: !(s[i] == '.' && s[i + 1] == '.')
    ensures |SanitizeSpec(s)| == |s| && forall i | 0 <= i < |s| :: SanitizeSpec(s)[i] == Cleaned(s[i])
  {
    var m := MapChars(s);
    forall i | 0 <= i < |m| ensures !DotsAt(m, i) {
      assert i < |s| - 1 ==> !(s[i] == '.' && s[i + 1] == '.');
    }
    CollapseFixesDotFree(m);
  }

  function Dots(n: nat): (r: string)
    ensures |r| == n && forall i | 0 <= i < n :: r[i] == '.'
  {
    seq(n, _ => '.')
  }

  lemma DotsMore(n: nat, t: string)
    ensures "." + (Dots(n) + t) == Dots(n + 1) + t
    ensures Dots(n + 1) + t != "" && (Dots(n + 1) + t)[1..] == Dots(n) + t
    ensures (Dots(n + 2) + t)[2..] == Dots(n) + t
  {
  }

  /** One replacement halves each run of dots, rounding up, and copies the rest. */
  lemma {:induction false} ReplaceRun(n: nat, t: string)
    requires t != "" ==> t[0] != '.'
    ensures ReplaceDots(Dots(n) + t) == Dots((n + 1) / 2) + ReplaceDots(t)
    decreases n
  {
    var s := Dots(n) + t;
    if n == 0 {
      assert s == t && Dots(0) + ReplaceDots(t) == ReplaceDots(t);
    } else if n == 1 {
      DotsMore(0, t);
      DotsMore(0, ReplaceDots(t));
      assert Dots(0) + t == t && Dots(0) + ReplaceDots(t) == ReplaceDots(t);
      assert t == "" ==> ReplaceDots(t) == "";
    } else {
      ReplaceRun(n - 2, t);
      DotsMore(n - 2, t);
      DotsMore((n - 1) / 2, ReplaceDots(t));
    }
  }

  lemma ReplaceCopies(t: string)
    requires t != "" && t[0] != '.'
    ensures ReplaceDots(t) == [t[0]] + ReplaceDots(t[1..])
  {
    if |t| == 1 {
      assert t == [t[0]] + t[1..];
    }
  }

  // ---------------------------------------------------------- file names

  const BIN := ".bin"
  const SAVE := ".save"
  const CKPT := ".ckpt"

  function BlobName(session: string, sig: string): string {
    session + "__" + sig + BIN
  }

  function SidecarName(file: string): string {
    file + CKPT
  }

  datatype Kind = Blob | Scratch | Sidecar | ScratchSidecar

  function FileName(session: string, sig: string, kind: Kind): string {
    var b := BlobName(session, sig);
    match kind
    case Blob => b
    case Scratch => b + SAVE
    case Sidecar => SidecarName(b)
    case ScratchSidecar => SidecarName(b + SAVE)
  }

  lemma BlobNameInjective(s1: string, g1: string, s2: string, g2: string)
    requires |g1| == |g2|
    requires BlobName(s1, g1) == BlobName(s2, g2)
    ensures s1 == s2 && g1 == g2
  {
    var n1, n2 := BlobName(s1, g1), BlobName(s2, g2);
    assert |n1| == |s1| + 2 + |g1| + 4;
    assert |n2| == |s2| + 2 + |g2| + 4;
    assert s1 == n1[..|s1|] == n2[..|s2|] == s2;
    assert g1 == n1[|s1| + 2..|s1| + 2 + |g1|];
    assert g2 == n2[|s2| + 2..|s2| + 2 + |g2|];
  }

  lemma KindEnding(session: string, sig: string, kind: Kind)
    ensures kind == Blob ==> EndsWith(FileName(session, sig, kind), BIN)
    ensures kind == Scratch ==> EndsWith(FileName(session, sig, kind), SAVE)
    ensures kind == Sidecar ==> EndsWith(FileName(session, sig, kind), BIN + CKPT)
    ensures kind == ScratchSidecar ==> EndsWith(FileName(session, sig, kind), SAVE + CKPT)
  {
    var b := BlobName(session, sig);
    AppendEndsWith(session + "__" + sig, BIN);
    AppendEndsWith(b, SAVE);
    AppendEndsWith(session + "__" + sig, BIN + CKPT);
    assert session + "__" + sig + (BIN + CKPT) == b + CKPT;
    AppendEndsWith(b, SAVE + CKPT);
    assert b + (SAVE + CKPT) == b + SAVE + CKPT;
  }

  /**
    The four files of all sessions never meet: one name comes from exactly one
    session, one signature and one kind.
   */
  lemma FileNameInjective(s1: string, g1: string, k1: Kind, s2: string, g2: string, k2: Kind)
    requires |g1| == |g2|
    requires FileName(s1, g1, k1) == FileName(s2, g2, k2)
    ensures s1 == s2 && g1 == g2 && k1 == k2
  {
    var n := FileName(s1, g1, k1);
    KindEnding(s1, g1, k1);
    KindEnding(s2, g2, k2);
    KindFromEnding(n, k1, k2);
    var b1, b2 := BlobName(s1, g1), BlobName(s2, g2);
    assert b1 == n[..|b1|] && b2 == n[..|b2|];
    BlobNameInjective(s1, g1, s2, g2);
  }

  function Ending(kind: Kind): string {
    match kind
    case Blob => BIN
    case Scratch => SAVE
    case Sidecar => BIN + CKPT
    case ScratchSidecar => SAVE + CKPT
  }

  lemma KindFromEnding(n: string, k1: Kind, k2: Kind)
    requires EndsWith(n, Ending(k1)) && EndsWith(n, Ending(k2))
    ensures k1 == k2
  {
    CharFromEnd(n, Ending(k1), 1);
    CharFromEnd(n, Ending(k2), 1);
    if |Ending(k1)| >= 6 && |Ending(k2)| >= 6 {
      // the two sidecar kinds differ just before ".ckpt"
      CharFromEnd(n, Ending(k1), 6);
      CharFromEnd(n, Ending(k2), 6);
    }
  }
}
