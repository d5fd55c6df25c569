/** getopt's permutation of the argument vector: options move in front of the other arguments, in place. */
module Getopt {
  import opened Bytes

  type Arg = bytes

  const DASHES: Arg := [45, 45]

  /** NONOPTION_P: not an option element; a lone dash is none. */
  predicate NonOption(a: Arg) {
    a == [] || a[0] != 45 || |a| == 1
  }

  // ----- the reference: what a scan makes of the arguments -----

  /** Whether an option element takes the argument after it is a matter of the option tables. */
  type Wants = Arg -> bool

  /** The number of arguments an option element takes up. */
  function Taken(wants: Wants, xs: seq<Arg>): nat
    requires xs != []
  {
    if wants(xs[0]) && |xs| > 1 then 2 else 1
  }

  /** The options with their arguments, in order; a double dash is the last of them. */
  function Options(wants: Wants, xs: seq<Arg>): seq<Arg>
    decreases |xs|
  {
    if xs == [] then []
    else if xs[0] == DASHES then [DASHES]
    else if NonOption(xs[0]) then Options(wants, xs[1..])
    else xs[..Taken(wants, xs)] + Options(wants, xs[Taken(wants, xs)..])
  }

  /** The other arguments, in order: everything behind a double dash is one. */
  function Others(wants: Wants, xs: seq<Arg>): seq<Arg>
    decreases |xs|
  {
    if xs == [] then []
    else if xs[0] == DASHES then xs[1..]
    else if NonOption(xs[0]) then [xs[0]] + Others(wants, xs[1..])
    else Others(wants, xs[Taken(wants, xs)..])
  }

  /** Nothing is lost and nothing is added. */
  lemma {:induction false} PartitionKeepsAll(wants: Wants, xs: seq<Arg>)
    ensures multiset(Options(wants, xs)) + multiset(Others(wants, xs)) == multiset(xs)
    decreases |xs|
  {
    if xs == [] {
    } else if xs[0] == DASHES || NonOption(xs[0]) {
      assert xs == [xs[0]] + xs[1..];
      if xs[0] != DASHES {
        PartitionKeepsAll(wants, xs[1..]);
      }
    } else {
      var n := Taken(wants, xs);
      assert xs == xs[..n] + xs[n..];
      PartitionKeepsAll(wants, xs[n..]);
    }
  }

  /** Neither group is reordered: each is a subsequence of the arguments. */
  ghost predicate Subsequence(part: seq<Arg>, xs: seq<Arg>)
    decreases |xs|
  {
    if part == [] then true
    else xs != [] && (Subsequence(part, xs[1..]) || (part[0] == xs[0] && Subsequence(part[1..], xs[1..])))
  }

  lemma {:induction false} EverythingIsSubsequence(xs: seq<Arg>)
    ensures Subsequence(xs, xs)
    decreases |xs|
  {
    if xs != [] {
      EverythingIsSubsequence(xs[1..]);
    }
  }

  lemma {:induction false} PartitionIsStable(wants: Wants, xs: seq<Arg>)
    ensures Subsequence(Options(wants, xs), xs) && Subsequence(Others(wants, xs), xs)
    decreases |xs|
  {
    if xs == [] {
    } else if xs[0] == DASHES {
      EverythingIsSubsequence(xs[1..]);
      assert Options(wants, xs)[1..] == [];
    } else if NonOption(xs[0]) {
      PartitionIsStable(wants, xs[1..]);
      assert Others(wants, xs)[1..] == Others(wants, xs[1..]);
    } else {
      var n := Taken(wants, xs);
      var rest := Options(wants, xs[n..]);
      PartitionIsStable(wants, xs[n..]);
      if n == 2 {
        assert xs[1..][1..] == xs[2..];
        assert (xs[..2] + rest)[1..] == [xs[1]] + rest && ([xs[1]] + rest)[1..] == rest;
        assert Subsequence([xs[1]] + rest, xs[1..]);
        assert Subsequence(Others(wants, xs[2..]), xs[1..]) by {
          SkipOne(Others(wants, xs[2..]), xs[1..]);
        }
        SkipOne(Others(wants, xs[2..]), xs);
      } else {
        assert (xs[..1] + rest)[1..] == rest;
        SkipOne(Others(wants, xs[1..]), xs);
      }
    }
  }

  lemma SkipOne(part: seq<Arg>, xs: seq<Arg>)
    requires xs != [] && Subsequence(part, xs[1..])
    ensures Subsequence(part, xs)
  {
  }

  // ----- exchange -----

  /** Swapping two blocks of the same length. */
  function Swapped(s: seq<Arg>, i: nat, j: nat, len: nat): (t: seq<Arg>)
    requires i + len <= j && j + len <= |s|
    ensures |t| == |s|
  {
    s[..i] + s[j..j + len] + s[i + len..j] + s[i..i + len] + s[j + len..]
  }

  lemma SwappedElements(s: seq<Arg>, t: seq<Arg>, i: nat, j: nat, len: nat)
    requires i + len <= j && j + len <= |s| == |t|
    requires forall m | i <= m < i + len :: t[m] == s[m + (j - i)]
    requires forall m | j <= m < j + len :: t[m] == s[m - (j - i)]
    requires forall m | 0 <= m < |s| && !(i <= m < i + len) && !(j <= m < j + len) :: t[m] == s[m]
    ensures t == Swapped(s, i, j, len)
  {
    var u := Swapped(s, i, j, len);
    forall m | 0 <= m < |s| ensures t[m] == u[m] {
      if j <= m < j + len {
        assert u[m] == s[i..i + len][m - j];
      }
    }
  }

  method SwapBlocks(argv: array<Arg>, i: nat, j: nat, len: nat)
    requires i + len <= j && j + len <= argv.Length
    modifies argv
    ensures argv[..] == Swapped(old(argv[..]), i, j, len)
  {
    hide Swapped;
    ghost var s := argv[..];
    for k := 0 to len
      invariant forall m | i <= m < i + k :: argv[m] == s[m + (j - i)]
      invariant forall m | j <= m < j + k :: argv[m] == s[m - (j - i)]
      invariant forall m | 0 <= m < argv.Length && !(i <= m < i + k) && !(j <= m < j + k) :: argv[m] == s[m]
    {
      var tem := argv[i + k];
      argv[i + k] := argv[j + k];
      argv[j + k] := tem;
    }
    SwappedElements(s, argv[..], i, j, len);
  }

  /** The part from `middle` to `top` in front of the part from `bottom` to `middle`. */
  function Rotated(s: seq<Arg>, bottom: nat, middle: nat, top: nat): (t: seq<Arg>)
    requires bottom <= middle <= top <= |s|
    ensures |t| == |s|
  {
    s[..bottom] + s[middle..top] + s[bottom..middle] + s[top..]
  }

  /** The bottom part is the shorter one: swapped to the far end it is in place. */
  lemma ShortBottom(s: seq<Arg>, bottom: nat, middle: nat, top: nat)
    requires bottom <= middle <= top <= |s| && top - middle >= middle - bottom
    ensures var len := middle - bottom;
            Rotated(Swapped(s, bottom, top - len, len), bottom, middle, top - len) == Rotated(s, bottom, middle, top)
  {
    hide *;
    var len := middle - bottom;
    var a, l, x, y, z := s[..bottom], s[bottom..middle], s[middle..top - len], s[top - len..top], s[top..];
    SwappedBottom(s, bottom, middle, top);
    assert (a + y + x) + l + z == a + y + x + (l + z);
    RotatedParts(a, y, x, l + z);
    RotatedIs(s, bottom, middle, top);
    assert s[middle..top] == x + y;
    Regroup(a, x, y, l, z);
  }

  lemma SwappedBottom(s: seq<Arg>, bottom: nat, middle: nat, top: nat)
    requires bottom <= middle <= top <= |s| && top - middle >= middle - bottom
    ensures var len := middle - bottom;
            Swapped(s, bottom, top - len,
              len) == s[..bottom] + s[top - len..top] + s[middle..top - len] + s[bottom..middle] + s[top..]
  {
  }

  /** The top part is the shorter one, or as short: swapped to the near end it is in place. */
  lemma ShortTop(s: seq<Arg>, bottom: nat, middle: nat, top: nat)
    requires bottom <= middle <= top <= |s| && top - middle <= middle - bottom
    ensures var len := top - middle;
            Rotated(Swapped(s, bottom, middle, len), bottom + len, middle, top) == Rotated(s, bottom, middle, top)
  {
    hide *;
    var len := top - middle;
    var a, p, q, t, z := s[..bottom], s[bottom..bottom + len], s[bottom + len..middle], s[middle..top], s[top..];
    SwappedTop(s, bottom, middle, top);
    RotatedParts(a + t, q, p, z);
    RotatedIs(s, bottom, middle, top);
    assert s[bottom..middle] == p + q;
    Regroup(a, t, p, q, z);
  }

  lemma RotatedIs(s: seq<Arg>, bottom: nat, middle: nat, top: nat)
    requires bottom <= middle <= top <= |s|
    ensures Rotated(s, bottom, middle, top) == s[..bottom] + s[middle..top] + s[bottom..middle] + s[top..]
  {
  }

  lemma RotatedParts(a: seq<Arg>, b: seq<Arg>, c: seq<Arg>, d: seq<Arg>)
    ensures Rotated(a + b + c + d, |a|, |a| + |b|, |a| + |b| + |c|) == a + c + b + d
  {
    FourParts(a, b, c, d);
  }

  lemma SwappedTop(s: seq<Arg>, bottom: nat, middle: nat, top: nat)
    requires bottom <= middle <= top <= |s| && top - middle <= middle - bottom
    ensures var len := top - middle;
            Swapped(s, bottom, middle,
              len) == s[..bottom] + s[middle..top] + s[bottom + len..middle] + s[bottom..bottom + len] + s[top..]
  {
  }

  lemma FourParts(a: seq<Arg>, b: seq<Arg>, c: seq<Arg>, d: seq<Arg>)
    ensures var s := a + b + c + d; var i, j := |a| + |b|, |a| + |b| + |c|;
            s[..|a|] == a && s[|a|..i] == b && s[i..j] == c && s[j..] == d
  {
  }

  lemma Regroup(a: seq<Arg>, b: seq<Arg>, c: seq<Arg>, d: seq<Arg>, e: seq<Arg>)
    ensures a + b + c + (d + e) == a + (b + c) + d + e && (a + b) + c + d + e == a + b + (c + d) + e
  {
  }

  // ----- the scan -----

  class Scanner {
    const argv: array<Arg>
    const wants: Wants
    var firstNonopt: nat
    var lastNonopt: nat
    var optind: nat

    constructor (argv: array<Arg>, wants: Wants)
      requires argv.Length >= 1
      ensures this.argv == argv && this.wants == wants && firstNonopt == lastNonopt == optind == 1
    {
      this.argv, this.wants := argv, wants;
      firstNonopt, lastNonopt, optind := 1, 1, 1;
    }

    ghost predicate Ordered()
      reads this
    {
      1 <= firstNonopt <= lastNonopt <= optind <= argv.Length
    }

    /** exchange: the options since the last exchange move in front of the arguments that were skipped. */
    method Exchange()
      requires Ordered()
      modifies argv, `firstNonopt, `lastNonopt
      ensures Ordered() && lastNonopt == optind && firstNonopt == old(firstNonopt) + (optind - old(lastNonopt))
      ensures argv[..] == Rotated(old(argv[..]), old(firstNonopt), old(lastNonopt), optind)
    {
      hide Swapped, Rotated;
      var bottom, middle, top := firstNonopt, lastNonopt, optind;
      ghost var target := Rotated(argv[..], bottom, middle, top);
      while top > middle && middle > bottom
        invariant Ordered() && unchanged(`firstNonopt, `lastNonopt)
        invariant 1 <= bottom <= middle <= top <= argv.Length && Rotated(argv[..], bottom, middle, top) == target
        decreases top - bottom
      {
        if top - middle > middle - bottom {
          var len := middle - bottom;
          ShortBottom(argv[..], bottom, middle, top);
          SwapBlocks(argv, bottom, top - len, len);
          top := top - len;
        } else {
          var len := top - middle;
          ShortTop(argv[..], bottom, middle, top);
          SwapBlocks(argv, bottom, middle, len);
          bottom := bottom + len;
        }
      }
      NothingToRotate(argv[..], bottom, middle, top);
      firstNonopt := firstNonopt + (optind - lastNonopt);
      lastNonopt := optind;
    }

    /** The options that stand in front so far, and those since the last exchange. */
    function Passed(): seq<Arg>
      requires Ordered()
      reads this, argv
    {
      argv[1..firstNonopt] + argv[lastNonopt..optind]
    }

    /** The arguments that have been skipped. */
    function Skipped(): seq<Arg>
      requires Ordered()
      reads this, argv
    {
      argv[firstNonopt..lastNonopt]
    }

    /** What has been passed and skipped, and what is still to come, make up the partition of the original arguments. */
    ghost predicate Scanning(orig: seq<Arg>)
      reads this, argv
    {
      && Ordered() && |orig| == argv.Length && argv[optind..] == orig[optind..] && argv[0] == orig[0]
      && Options(wants, orig[1..]) == Passed() + Options(wants, orig[optind..])
      && Others(wants, orig[1..]) == Skipped() + Others(wants, orig[optind..])
    }

    /** All arguments are in place, and the index is that of the first one that is no option. */
    ghost predicate Finished(orig: seq<Arg>)
      reads this, argv
    {
      && |orig| == argv.Length >= 1 && argv[0] == orig[0]
      && argv[1..] == Options(wants, orig[1..]) + Others(wants, orig[1..])
      && optind == 1 + |Options(wants, orig[1..])|
    }

    /** Exchanging when options have followed skipped arguments. */
    method Gather(ghost orig: seq<Arg>)
      requires Scanning(orig)
      modifies argv, `firstNonopt, `lastNonopt
      ensures Scanning(orig) && lastNonopt == optind && Passed() == old(Passed()) && Skipped() == old(Skipped())
    {
      hide Options, Others, Rotated;
      if firstNonopt != lastNonopt && lastNonopt != optind {
        GatherSlices(argv[..], firstNonopt, lastNonopt, optind);
        Exchange();
      } else if lastNonopt != optind {
        assert argv[1..firstNonopt] + argv[lastNonopt..optind] == argv[1..optind];
        firstNonopt := optind;
        lastNonopt := optind;
      }
      assert argv[optind..optind] == [];
    }

    /** Skipping arguments that are no options. */
    method Skip(ghost orig: seq<Arg>)
      requires Scanning(orig) && lastNonopt == optind
      modifies `optind, `lastNonopt
      ensures Scanning(orig) && lastNonopt == optind >= old(optind)
              && (optind < argv.Length ==> !NonOption(argv[optind]))
    {
      hide Options, Others;
      while optind < argv.Length && NonOption(argv[optind])
        invariant Scanning(orig) && lastNonopt == optind >= old(optind)
      {
        SkipStep(wants, orig, optind, argv[..]);
        assert argv[firstNonopt..optind + 1] == argv[firstNonopt..optind] + [argv[optind]];
        assert argv[optind + 1..optind + 1] == [] && argv[optind..optind] == [];
        assert argv[optind + 1..] == argv[optind..][1..];
        optind := optind + 1;
        lastNonopt := optind;
      }
    }

    /**
     * The part of _getopt_internal that moves on to the next argument, in PERMUTE order. At the end the index goes back
     * to the arguments that were skipped.
     */
    method NextElement(ghost orig: seq<Arg>) returns (more: bool)
      requires Scanning(orig)
      modifies this, argv
      ensures more ==>
        Scanning(orig) && optind < argv.Length && !NonOption(argv[optind]) && argv[optind] != DASHES
        && lastNonopt == optind
      ensures more ==> optind >= old(optind)
      ensures !more ==> Finished(orig)
    {
      hide Options, Others, Scanner.Passed, Scanner.Skipped, Scanner.Scanning, Rotated;
      Gather(orig);
      Skip(orig);
      assert Ordered() by { IsOrdered(orig); }
      if optind != argv.Length && argv[optind] == DASHES {
        PassDashes(orig);
      } else if optind == argv.Length {
        PassEnd(orig);
      }
      if optind == argv.Length {
        if firstNonopt != lastNonopt {
          optind := firstNonopt;
        }
        return false;
      }
      return true;
    }

    lemma IsOrdered(orig: seq<Arg>)
      requires Scanning(orig)
      ensures Ordered()
    {
      hide Options, Others;
    }

    /** Everything is in place; the index is still at the end. */
    ghost predicate AtEnd(orig: seq<Arg>)
      reads this, argv
    {
      && |orig| == argv.Length >= 1 && argv[0] == orig[0] && 1 <= firstNonopt <= lastNonopt == optind == argv.Length
      && argv[1..] == Options(wants, orig[1..]) + Others(wants, orig[1..])
      && firstNonopt == 1 + |Options(wants, orig[1..])|
    }

    /** The double dash is passed like an option, and everything behind it skipped. */
    method PassDashes(ghost orig: seq<Arg>)
      requires Scanning(orig) && lastNonopt == optind < argv.Length && argv[optind] == DASHES
      modifies this, argv
      ensures AtEnd(orig)
    {
      hide Options, Others, Rotated;
      ghost var dash, s := optind, argv[..];
      DashStep(wants, orig, dash, s);
      ghost var passed, skipped, rest := s[1..firstNonopt], s[firstNonopt..dash], s[dash + 1..];
      assert Passed() == passed && Skipped() == skipped by {
        assert argv[dash..dash] == [];
      }
      optind := optind + 1;
      if firstNonopt != lastNonopt {
        DashSlices(s, firstNonopt, lastNonopt, optind);
        Exchange();
      } else {
        assert s[1..optind] == passed + [DASHES];
        firstNonopt := optind;
      }
      lastNonopt := argv.Length;
      optind := argv.Length;
      InPlace(argv[..], firstNonopt, passed + [DASHES], skipped + rest);
    }

    method PassEnd(ghost orig: seq<Arg>)
      requires Scanning(orig) && lastNonopt == optind == argv.Length
      ensures AtEnd(orig)
    {
      hide Options, Others;
      assert orig[optind..] == [];
      NothingLeft(wants);
      assert argv[optind..optind] == [];
      InPlace(argv[..], firstNonopt, argv[1..firstNonopt], argv[firstNonopt..]);
    }

    /** Decoding an option element, over as many calls as it has option characters: it takes up one or two arguments. */
    method TakeOption(ghost orig: seq<Arg>)
      requires Scanning(orig) && optind < argv.Length && !NonOption(argv[optind]) && argv[optind] != DASHES
              && lastNonopt == optind
      modifies `optind
      ensures Scanning(orig) && optind > old(optind)
    {
      hide Options, Others;
      OptionStep(wants, orig, optind, argv[..]);
      ghost var start, n := optind, Taken(wants, orig[optind..]);
      var takes := wants(argv[optind]);
      optind := optind + 1;
      if takes && optind < argv.Length {
        optind := optind + 1;
      }
      assert optind == start + n;
      assert argv[lastNonopt..optind] == argv[start..][..n] && argv[start..start] == [];
      assert argv[optind..] == argv[start..][n..];
    }

    /**
     * A whole scan: the arguments end up as the options with their arguments followed by the others, both in their
     * original order, and the index is that of the first argument that is no option.
     */
    method Run()
      requires firstNonopt == lastNonopt == optind == 1 <= argv.Length
      modifies this, argv
      ensures Finished(old(argv[..]))
    {
      hide Options, Others;
      ghost var orig := argv[..];
      assert argv[1..1] + argv[1..1] == [];
      while true
        invariant Scanning(orig)
        decreases argv.Length - optind
      {
        var more := NextElement(orig);
        if !more {
          break;
        }
        TakeOption(orig);
      }
    }
  }

  lemma InPlace(s: seq<Arg>, n: nat, a: seq<Arg>, b: seq<Arg>)
    requires 1 <= n <= |s| && s[1..n] == a && s[n..] == b
    ensures s[1..] == a + b && n == 1 + |a|
  {
  }

  lemma GatherSlices(s: seq<Arg>, first: nat, last: nat, top: nat)
    requires 1 <= first <= last <= top <= |s|
    ensures var t := Rotated(s, first, last, top); var first' := first + (top - last);
            && t[1..first'] == s[1..first] + s[last..top] && t[first'..top] == s[first..last] && t[top..] == s[top..]
              && t[0] == s[0]
            && t[top..top] == []
  {
    var t := Rotated(s, first, last, top);
    assert t == s[..first] + s[last..top] + s[first..last] + s[top..];
  }

  /** The same with a double dash as the last option, and nothing passed since the last exchange. */
  lemma DashSlices(s: seq<Arg>, first: nat, last: nat, top: nat)
    requires 1 <= first <= last && top == last + 1 <= |s|
    ensures var t := Rotated(s, first, last, top);
            t[1..first + 1] == s[1..first] + [s[last]] && t[first + 1..] == s[first..last] + s[top..] && t[0] == s[0]
  {
    var t := Rotated(s, first, last, top);
    assert t == s[..first] + [s[last]] + s[first..last] + s[top..];
  }

  lemma SkipStep(wants: Wants, orig: seq<Arg>, n: nat, now: seq<Arg>)
    requires n < |orig| == |now| && now[n..] == orig[n..] && NonOption(now[n])
    ensures Options(wants, orig[n..]) == Options(wants, orig[n + 1..])
    ensures Others(wants, orig[n..]) == [now[n]] + Others(wants, orig[n + 1..])
  {
    assert orig[n..][0] == now[n..][0] && orig[n..][1..] == orig[n + 1..];
  }

  lemma DashStep(wants: Wants, orig: seq<Arg>, n: nat, now: seq<Arg>)
    requires n < |orig| == |now| && now[n..] == orig[n..] && now[n] == DASHES
    ensures Options(wants, orig[n..]) == [DASHES] && Others(wants, orig[n..]) == now[n + 1..]
  {
    assert orig[n..][0] == now[n..][0] && orig[n..][1..] == now[n..][1..] == now[n + 1..];
  }

  lemma OptionStep(wants: Wants, orig: seq<Arg>, n: nat, now: seq<Arg>)
    requires n < |orig| == |now| && now[n..] == orig[n..] && !NonOption(now[n]) && now[n] != DASHES
    ensures var k := Taken(wants, orig[n..]);
            && k == (if wants(now[n]) && n + 1 < |now| then 2 else 1) && n + k <= |now|
            && Options(wants, orig[n..]) == now[n..][..k] + Options(wants, orig[n + k..])
            && Others(wants, orig[n..]) == Others(wants, orig[n + k..])
  {
    var k := Taken(wants, orig[n..]);
    assert orig[n..][0] == now[n..][0] && orig[n..][k..] == orig[n + k..];
  }

  lemma NothingLeft(wants: Wants)
    ensures Options(wants, []) == [] && Others(wants, []) == []
  {
  }

  lemma NothingToRotate(s: seq<Arg>, bottom: nat, middle: nat, top: nat)
    requires bottom <= middle <= top <= |s| && (bottom == middle || middle == top)
    ensures Rotated(s, bottom, middle, top) == s
  {
  }
}
