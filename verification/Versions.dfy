/** The order of release tags and the release that an update check selects. */
module Versions {
  import opened ByteOrder
  import opened Decimal
  import opened Domain

  // ----- parsing a tag -----

  function WithoutV(tag: string): string {
    TrimSpace(if tag != "" && tag[0] == 'v' then tag[1..] else tag)
  }

  // A number of the version: strconv.Atoi, and not negative.
  function Part(s: string): Option<nat> {
    var number := Atoi(s);
    if number.Some? && number.value >= 0 then Some(number.value) else None
  }

  function Parts(parts: seq<string>): Option<seq<nat>> {
    if parts == [] then Some([])
    else
      var earlier, last := Parts(parts[..|parts| - 1]), Part(parts[|parts| - 1]);
      if earlier.Some? && last.Some? then Some(earlier.value + [last.value]) else None
  }

  lemma {:induction false} PartsLength(parts: seq<string>)
    ensures Parts(parts).Some? ==> |Parts(parts).value| == |parts|
  {
    if parts != [] {
      PartsLength(parts[..|parts| - 1]);
    }
  }

  const BUILD := "build."

  // The build number; a tag without one, or with nothing after its dash, has build 0.
  function Build(prerelease: string): Option<nat> {
    if prerelease == "" then Some(0)
    else if BUILD <= prerelease then Part(prerelease[|BUILD|..])
    else None
  }

  /** vMAJOR.MINOR[.PATCH][-build.N] as four numbers. */
  function Parsed(tag: string): (r: Option<seq<nat>>)
    ensures r.Some? ==> |r.value| == 4
  {
    var text := WithoutV(tag);
    var dash := IndexOf(text, '-');
    var parts := Split(text[..dash], '.');
    var build := Build(if dash < |text| then text[dash + 1..] else "");
    PartsLength(parts);
    if |parts| < 2 || |parts| > 3 || Parts(parts).None? || build.None? then None
    else Some(Parts(parts).value + (if |parts| == 2 then [0] else []) + [build.value])
  }

  lemma PartsPrefix(parts: seq<string>, i: nat)
    requires i < |parts|
    ensures parts[..i + 1][..i] == parts[..i] && parts[..i + 1][i] == parts[i]
    ensures Parts(parts[..i]).None? ==> Parts(parts[..i + 1]).None?
  {
  }

  lemma {:induction false} PartsFail(parts: seq<string>, i: nat)
    requires i <= |parts| && Parts(parts[..i]).None?
    ensures Parts(parts).None?
    decreases |parts| - i
  {
    if i < |parts| {
      PartsPrefix(parts, i);
      PartsFail(parts, i + 1);
    } else {
      assert parts[..i] == parts;
    }
  }

  /** The parser: it fills an array of four numbers. */
  method ParseVersion(tag: string) returns (result: array<nat>, ok: bool)
    ensures fresh(result) && result.Length == 4
    ensures ok <==> Parsed(tag).Some?
    ensures ok ==> result[..] == Parsed(tag).value
  {
    hide Atoi, Split, TrimSpace, WithoutV;
    result := new nat[4](_ => 0);
    ok := false;
    var value, prerelease := WithoutV(tag), "";
    var index := IndexOf(value, '-');
    if index < |value| {
      prerelease, value := value[index + 1..], value[..index];
    } else {
      assert value[..index] == value;
    }
    var parts := Split(value, '.');
    PartsLength(parts);
    if |parts| < 2 || |parts| > 3 {
      return;
    }
    for i := 0 to |parts|
      invariant Parts(parts[..i]) == Some(result[..i])
      invariant forall j :: i <= j < 4 ==> result[j] == 0
    {
      PartsPrefix(parts, i);
      assert Parts(parts[..i + 1]) == if Part(parts[i]).None? then None else Some(result[..i] + [Part(parts[i]).value]);
      var number := Atoi(parts[i]);
      if number.None? || number.value < 0 {
        PartsFail(parts, i + 1);
        return;
      }
      ghost var before := result[..i];
      result[i] := number.value;
      assert result[..i + 1] == before + [number.value];
    }
    assert parts[..|parts|] == parts;
    if prerelease != "" {
      if !(BUILD <= prerelease) {
        return;
      }
      var number := Atoi(prerelease[|BUILD|..]);
      if number.None? || number.value < 0 {
        return;
      }
      result[3] := number.value;
    }
    ok := true;
  }

  // ----- the order -----

  function CompareNumbers(a: seq<nat>, b: seq<nat>): int
    requires |a| == |b|
  {
    if a == [] then 0
    else if a[0] != b[0] then if a[0] < b[0] then -1 else 1
    else CompareNumbers(a[1..], b[1..])
  }

  // strings.Compare
  function CompareText(a: string, b: string): int {
    if a == b then 0 else if Below(a, b) then -1 else 1
  }

  function CompareVersions(a: string, b: string): int {
    var na, nb := Parsed(a), Parsed(b);
    if na.None? && nb.None? then CompareText(a, b)
    else if na.None? then -1
    else if nb.None? then 1
    else CompareNumbers(na.value, nb.value)
  }

  lemma {:induction false} NumbersOrder(a: seq<nat>, b: seq<nat>, c: seq<nat>)
    requires |a| == |b| == |c|
    ensures CompareNumbers(a, b) == -CompareNumbers(b, a) && -1 <= CompareNumbers(a, b) <= 1
    ensures CompareNumbers(a, b) == 0 <==> a == b
    ensures CompareNumbers(a, b) <= 0 && CompareNumbers(b, c) <= 0 ==> CompareNumbers(a, c) <= 0
  {
    if a != [] {
      NumbersOrder(a[1..], b[1..], c[1..]);
      assert a == [a[0]] + a[1..] && b == [b[0]] + b[1..];
    }
  }

  lemma TextOrder(a: string, b: string, c: string)
    ensures CompareText(a, b) == -CompareText(b, a)
    ensures CompareText(a, b) <= 0 && CompareText(b, c) <= 0 ==> CompareText(a, c) <= 0
  {
    BelowTrichotomy(a, b);
    BelowTrichotomy(a, c);
    BelowIrreflexive(a);
    if Below(a, b) && Below(b, c) {
      BelowTransitive(a, b, c);
    }
  }

  // ----- what the order means -----

  /** At the first place where they differ, a has the larger number. */
  ghost predicate Above(a: seq<nat>, b: seq<nat>)
    requires |a| == |b|
  {
    exists i :: 0 <= i < |a| && a[..i] == b[..i] && a[i] > b[i]
  }

  lemma {:induction false} AboveIsPositive(a: seq<nat>, b: seq<nat>)
    requires |a| == |b|
    ensures CompareNumbers(a, b) > 0 <==> Above(a, b)
  {
    if a != [] {
      var x, y := a[1..], b[1..];
      AboveIsPositive(x, y);
      if Above(x, y) && a[0] == b[0] {
        var i :| 0 <= i < |x| && x[..i] == y[..i] && x[i] > y[i];
        assert a[..i + 1] == [a[0]] + x[..i] && b[..i + 1] == [b[0]] + y[..i];
        assert a[i + 1] > b[i + 1];
      }
      if Above(a, b) {
        var i :| 0 <= i < |a| && a[..i] == b[..i] && a[i] > b[i];
        if i > 0 {
          assert a[0] == a[..i][0] == b[..i][0] == b[0];
          assert x[..i - 1] == a[..i][1..] && y[..i - 1] == b[..i][1..];
          assert x[i - 1] > y[i - 1];
        }
      }
      if a[0] > b[0] {
        assert a[..0] == b[..0];
      }
    }
  }

  /** Tag a is of a newer release than b: by their numbers if both can be read, by bytes if neither can;
      a readable tag is newer than an unreadable one. */
  ghost predicate NewerTag(a: string, b: string) {
    if Parsed(a).Some? && Parsed(b).Some? then Above(Parsed(a).value, Parsed(b).value)
    else if Parsed(a).None? && Parsed(b).None? then Below(b, a)
    else Parsed(a).Some?
  }

  predicate SameVersion(a: string, b: string) {
    Parsed(a) == Parsed(b) && (Parsed(a).None? ==> a == b)
  }

  /** compareVersions is positive exactly for the newer tag and zero exactly for the same version; its sign
      is antisymmetric and its order transitive. */
  lemma VersionOrder(a: string, b: string, c: string)
    ensures CompareVersions(a, b) > 0 <==> NewerTag(a, b)
    ensures CompareVersions(a, b) == 0 <==> SameVersion(a, b)
    ensures CompareVersions(a, b) == -CompareVersions(b, a)
    ensures CompareVersions(a, b) <= 0 && CompareVersions(b, c) <= 0 ==> CompareVersions(a, c) <= 0
  {
    hide Parsed;
    var na, nb, nc := Parsed(a), Parsed(b), Parsed(c);
    TextOrder(a, b, c);
    BelowTrichotomy(a, b);
    BelowIrreflexive(a);
    if na.Some? && nb.Some? {
      AboveIsPositive(na.value, nb.value);
      NumbersOrder(na.value, nb.value, if nc.Some? then nc.value else nb.value);
    }
  }

  /** The order of the signs in the order of releases: one of two tags is newer unless they are one version. */
  lemma NewerTagOrder(a: string, b: string, c: string)
    ensures NewerTag(a, b) ==> !NewerTag(b, a) && !SameVersion(a, b)
    ensures NewerTag(a, b) || NewerTag(b, a) || SameVersion(a, b)
    ensures NewerTag(a, b) && NewerTag(b, c) ==> NewerTag(a, c)
  {
    hide CompareVersions, NewerTag, SameVersion;
    VersionOrder(a, b, c);
    VersionOrder(b, a, c);
    VersionOrder(c, b, a);
    VersionOrder(c, a, b);
    VersionOrder(a, c, b);
    VersionOrder(b, c, a);
  }

  // ----- tags that the project publishes -----

  function TagOf(major: nat, minor: nat, patch: nat, build: nat): string {
    "v" + (Show(major) + "." + (Show(minor) + "." + Show(patch)) + "-" + (BUILD + Show(build)))
  }

  lemma {:induction false} DigitsHoldNo(s: string, c: char)
    requires AllDigits(s) && !IsDigit(c)
    ensures c !in s
  {
  }

  lemma PartOfNumber(n: nat)
    requires n <= MAX_INT
    ensures Part(Show(n)) == Some(n)
  {
    ShowReadsBack(n);
    AtoiOfDigits(Show(n));
  }

  lemma PartsSnoc(parts: seq<string>, part: string)
    requires Parts(parts).Some? && Part(part).Some?
    ensures Parts(parts + [part]) == Some(Parts(parts).value + [Part(part).value])
  {
    hide Part;
    assert (parts + [part])[..|parts|] == parts;
  }

  lemma PartsOfThree(a: string, b: string, c: string)
    requires Part(a).Some? && Part(b).Some? && Part(c).Some?
    ensures Parts([a, b, c]) == Some([Part(a).value, Part(b).value, Part(c).value])
  {
    hide Part;
    PartsSnoc([], a);
    PartsSnoc([] + [a], b);
    PartsSnoc([] + [a] + [b], c);
    assert Parts([]) == Some([]);
    assert [] + [a] + [b] + [c] == [a, b, c];
    var x, y, z := Part(a).value, Part(b).value, Part(c).value;
    assert [] + [x] + [y] + [z] == [x, y, z];
  }

  lemma SplitOfThree(a: string, b: string, c: string)
    requires AllDigits(a) && AllDigits(b) && AllDigits(c)
    ensures Split(a + "." + (b + "." + c), '.') == [a, b, c]
  {
    DigitsHoldNo(a, '.');
    DigitsHoldNo(b, '.');
    DigitsHoldNo(c, '.');
    SplitNone(c, '.');
    SplitFirst(b, '.', c);
    SplitFirst(a, '.', b + "." + c);
    assert a + ['.'] + (b + "." + c) == a + "." + (b + "." + c) && b + ['.'] + c == b + "." + c;
  }

  lemma BuildOfNumber(n: string, build: nat)
    requires Part(n) == Some(build)
    ensures Build(BUILD + n) == Some(build)
  {
    hide Part;
    assert (BUILD + n)[|BUILD|..] == n;
  }

  /** A published tag is read as its four numbers, so builds are ordered by number and not by text. */
  lemma ParsedOfTag(major: nat, minor: nat, patch: nat, build: nat)
    requires major <= MAX_INT && minor <= MAX_INT && patch <= MAX_INT && build <= MAX_INT
    ensures Parsed(TagOf(major, minor, patch, build)) == Some([major, minor, patch, build])
  {
    hide Split, Part, Atoi, Show, Parts, DigitsValue, IndexOf, TrimSpace;
    var a, b, c, n := Show(major), Show(minor), Show(patch), Show(build);
    ShowReadsBack(major);
    ShowReadsBack(minor);
    ShowReadsBack(patch);
    ShowReadsBack(build);
    var numbers := a + "." + (b + "." + c);
    var text := numbers + "-" + (BUILD + n);
    var tag := TagOf(major, minor, patch, build);
    assert tag == "v" + text && tag[1..] == text;
    assert IsDigit(text[0]) && IsDigit(text[|text| - 1]);
    TrimKeeps(text);
    DigitsHoldNo(a, '-');
    DigitsHoldNo(b, '-');
    DigitsHoldNo(c, '-');
    IndexOfFirst(numbers, '-', BUILD + n);
    assert numbers + ['-'] + (BUILD + n) == text;
    assert text[..|numbers|] == numbers && text[|numbers| + 1..] == BUILD + n;
    SplitOfThree(a, b, c);
    PartOfNumber(major);
    PartOfNumber(minor);
    PartOfNumber(patch);
    PartOfNumber(build);
    PartsOfThree(a, b, c);
    BuildOfNumber(n, build);
    assert [major, minor, patch] + [] + [build] == [major, minor, patch, build];
  }

  /** Of two published tags the newer one has the larger number where they first differ: build 10 is
      newer than build 9. */
  lemma NewerPublishedTag(x: seq<nat>, y: seq<nat>)
    requires |x| == |y| == 4 && (forall i :: 0 <= i < 4 ==> x[i] <= MAX_INT && y[i] <= MAX_INT)
    ensures NewerTag(TagOf(x[0], x[1], x[2], x[3]), TagOf(y[0], y[1], y[2], y[3])) <==>
      x[0] > y[0] || (x[0] == y[0] && (x[1] > y[1] || (x[1] == y[1] && (x[2] > y[2] || (x[2] == y[2] && x[3] > y[3])))))
  {
    hide TagOf, Parsed;
    ParsedOfTag(x[0], x[1], x[2], x[3]);
    ParsedOfTag(y[0], y[1], y[2], y[3]);
    assert [x[0], x[1], x[2], x[3]] == x && [y[0], y[1], y[2], y[3]] == y;
    AboveIsPositive(x, y);
    ComparesFour(x, y);
  }

  lemma ComparesFour(x: seq<nat>, y: seq<nat>)
    requires |x| == |y| == 4
    ensures CompareNumbers(x, y) > 0 <==>
      x[0] > y[0] || (x[0] == y[0] && (x[1] > y[1] || (x[1] == y[1] && (x[2] > y[2] || (x[2] == y[2] && x[3] > y[3])))))
  {
    var x1, y1 := x[1..], y[1..];
    var x2, y2 := x1[1..], y1[1..];
    var x3, y3 := x2[1..], y2[1..];
    assert CompareNumbers(x3, y3) > 0 <==> x3[0] > y3[0];
    assert CompareNumbers(x2, y2) > 0 <==> x2[0] > y2[0] || (x2[0] == y2[0] && CompareNumbers(x3, y3) > 0);
    assert CompareNumbers(x1, y1) > 0 <==> x1[0] > y1[0] || (x1[0] == y1[0] && CompareNumbers(x2, y2) > 0);
  }

  // ----- the release that is selected -----

  datatype Release = Release(tag: string, draft: bool)

  /** Newest first, and in the order of the feed among equals. */
  ghost predicate Precedes(feed: seq<Release>, x: nat, y: nat)
    requires x < |feed| && y < |feed|
  {
    NewerTag(feed[x].tag, feed[y].tag) || (SameVersion(feed[x].tag, feed[y].tag) && x < y)
  }

  /** The positions of the feed in stable order. */
  ghost predicate StableOrder(feed: seq<Release>, n: nat, order: seq<nat>)
    requires n <= |feed|
  {
    && |order| == n
    && (forall k :: 0 <= k < |order| ==> order[k] < n)
    && (forall x: nat :: x < n ==> x in order)
    && (forall j, k :: 0 <= j < k < |order| ==> Precedes(feed, order[j], order[k]))
  }

  lemma PrecedesBySign(feed: seq<Release>, x: nat, y: nat)
    requires x < |feed| && y < |feed|
    ensures Precedes(feed, x, y) <==>
      CompareVersions(feed[x].tag, feed[y].tag) > 0 || (CompareVersions(feed[x].tag, feed[y].tag) == 0 && x < y)
  {
    hide CompareVersions, NewerTag, SameVersion;
    VersionOrder(feed[x].tag, feed[y].tag, feed[x].tag);
  }

  lemma PrecedesTransitive(feed: seq<Release>, x: nat, y: nat, z: nat)
    requires x < |feed| && y < |feed| && z < |feed| && Precedes(feed, x, y) && Precedes(feed, y, z)
    ensures Precedes(feed, x, z)
  {
    PrecedesBySign(feed, x, y);
    PrecedesBySign(feed, y, z);
    PrecedesBySign(feed, x, z);
    hide CompareVersions, Precedes, NewerTag, SameVersion;
    VersionOrder(feed[z].tag, feed[y].tag, feed[x].tag);
    VersionOrder(feed[x].tag, feed[y].tag, feed[z].tag);
    VersionOrder(feed[x].tag, feed[z].tag, feed[y].tag);
    VersionOrder(feed[y].tag, feed[z].tag, feed[x].tag);
    VersionOrder(feed[z].tag, feed[x].tag, feed[y].tag);
  }

  lemma Position(order: seq<nat>, x: nat) returns (k: nat)
    requires x in order
    ensures k < |order| && order[k] == x
  {
    k :| k < |order| && order[k] == x;
  }

  lemma Inserted(feed: seq<Release>, order: seq<nat>, i: nat, p: nat)
    requires i < |feed| && StableOrder(feed, i, order) && p <= |order|
    requires forall k :: 0 <= k < p ==> Precedes(feed, order[k], i)
    requires forall k :: p <= k < |order| ==> Precedes(feed, i, order[k])
    ensures StableOrder(feed, i + 1, order[..p] + [i] + order[p..])
  {
    hide Precedes;
    var after := order[..p] + [i] + order[p..];
    assert after[p] == i;
    forall x: nat | x < i + 1
      ensures x in after
    {
      if x < i {
        var k := Position(order, x);
        assert after[if k < p then k else k + 1] == x;
      }
    }
    forall j, k | 0 <= j < k < |after|
      ensures Precedes(feed, after[j], after[k])
    {
      var j', k' := if j <= p then j else j - 1, if k <= p then k else k - 1;
      assert j != p ==> after[j] == order[j'];
      assert k != p ==> after[k] == order[k'];
    }
  }

  // Everything before the place found precedes the inserted release.
  lemma RestPrecedes(feed: seq<Release>, order: seq<nat>, i: nat, p: nat)
    requires i < |feed| && StableOrder(feed, i, order) && p <= |order|
    requires p > 0 ==> CompareVersions(feed[order[p - 1]].tag, feed[i].tag) >= 0
    ensures forall k :: 0 <= k < p ==> Precedes(feed, order[k], i)
  {
    hide CompareVersions, Precedes;
    forall k | 0 <= k < p
      ensures Precedes(feed, order[k], i)
    {
      PrecedesBySign(feed, order[p - 1], i);
      if k < p - 1 {
        PrecedesTransitive(feed, order[k], order[p - 1], i);
      }
    }
  }

  /** A stable sort of the feed, as insertion does it. */
  method SortStable(feed: seq<Release>) returns (order: seq<nat>)
    ensures StableOrder(feed, |feed|, order)
  {
    hide CompareVersions, Precedes;
    order := [];
    for i := 0 to |feed|
      invariant StableOrder(feed, i, order)
    {
      var p := |order|;
      while p > 0 && CompareVersions(feed[order[p - 1]].tag, feed[i].tag) < 0
        invariant 0 <= p <= |order|
        invariant forall k :: p <= k < |order| ==> Precedes(feed, i, order[k])
      {
        VersionOrder(feed[order[p - 1]].tag, feed[i].tag, feed[i].tag);
        PrecedesBySign(feed, i, order[p - 1]);
        p := p - 1;
      }
      RestPrecedes(feed, order, i, p);
      Inserted(feed, order, i, p);
      order := order[..p] + [i] + order[p..];
    }
  }

  lemma FirstIsNewest(feed: seq<Release>, order: seq<nat>, k: nat)
    requires StableOrder(feed, |feed|, order) && k <= |order| && forall j :: 0 <= j < k ==> feed[order[j]].draft
    ensures k == |order| ==> forall i :: 0 <= i < |feed| ==> feed[i].draft
    ensures k < |order| ==> forall i :: 0 <= i < |feed| && !feed[i].draft ==>
      !NewerTag(feed[i].tag, feed[order[k]].tag) && (SameVersion(feed[i].tag, feed[order[k]].tag) ==> order[k] <= i)
  {
    hide CompareVersions, NewerTag, Parsed;
    forall i: nat | i < |feed| && !feed[i].draft
      ensures k < |order| && (i != order[k] ==> Precedes(feed, order[k], i))
      ensures !NewerTag(feed[i].tag, feed[order[k]].tag) && (SameVersion(feed[i].tag, feed[order[k]].tag) ==> order[k] <= i)
    {
      var j := Position(order, i);
      NewerTagOrder(feed[order[k]].tag, feed[i].tag, feed[i].tag);
      NewerTagOrder(feed[i].tag, feed[i].tag, feed[i].tag);
      NewerTagOrder(feed[i].tag, feed[order[k]].tag, feed[i].tag);
    }
  }

  /** The update check: no release is offered only when all are drafts; otherwise the offered one is no
      draft, no other is newer, and it comes first in the feed among those that are as new. */
  method SelectRelease(feed: seq<Release>) returns (selected: Option<nat>)
    ensures selected.None? <==> forall i :: 0 <= i < |feed| ==> feed[i].draft
    ensures selected.Some? ==> selected.value < |feed| && !feed[selected.value].draft
    ensures selected.Some? ==> forall i :: 0 <= i < |feed| && !feed[i].draft ==>
      !NewerTag(feed[i].tag, feed[selected.value].tag) && (SameVersion(feed[i].tag, feed[selected.value].tag) ==> selected.value <= i)
  {
    hide CompareVersions, Precedes, NewerTag, SameVersion;
    var order := SortStable(feed);
    var k := 0;
    while k < |order|
      invariant 0 <= k <= |order|
      invariant forall j :: 0 <= j < k ==> feed[order[j]].draft
    {
      if !feed[order[k]].draft {
        FirstIsNewest(feed, order, k);
        return Some(order[k]);
      }
      k := k + 1;
    }
    FirstIsNewest(feed, order, k);
    selected := None;
  }
}
