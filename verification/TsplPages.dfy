/** How `_finalize_tspl` cuts the collected lines of a job into print jobs. */
module TsplPages {
  import opened Images

  const MAX_DOTS := 2540

  function Height(pages: seq<Image>): nat {
    if pages == [] then 0 else |pages[0].rows| + Height(pages[1..])
  }

  lemma {:induction false} HeightAppend(a: seq<Image>, b: seq<Image>)
    ensures Height(a + b) == Height(a) + Height(b)
  {
    if a == [] {
      assert a + b == b;
    } else {
      HeightAppend(a[1..], b);
      assert (a + b)[1..] == a[1..] + b;
    }
  }

  lemma HeightOne(p: Image)
    ensures Height([p]) == |p.rows|
  {
    assert [p][1..] == [];
  }

  ghost predicate Positive(pages: seq<Image>) {
    forall i :: 0 <= i < |pages| ==> |pages[i].rows| > 0
  }

  /** The groups that come out when `current`, already `height` dots tall, is open and
      `rest` is still to be placed. */
  function GroupsFrom(current: seq<Image>, height: nat, rest: seq<Image>): (groups: seq<seq<Image>>)
    ensures |groups| > 0
    decreases |rest|
  {
    if rest == [] then [current]
    else
      var h := |rest[0].rows|;
      if height > 0 && height + h > MAX_DOTS then [current] + GroupsFrom([rest[0]], h, rest[1..])
      else GroupsFrom(current + [rest[0]], height + h, rest[1..])
  }

  /** The grouping loop: a page that would make the open group too tall opens a new one. */
  method GroupPages(pages: seq<Image>) returns (groups: seq<seq<Image>>)
    ensures groups == GroupsFrom([], 0, pages)
    ensures Concat(groups) == pages
  {
    groups := [[]];
    var groupHeight: nat := 0;
    ghost var done := [];
    for i := 0 to |pages|
      invariant |groups| > 0 && groups == done + [groups[|groups| - 1]]
      invariant GroupsFrom([], 0, pages) == done + GroupsFrom(groups[|groups| - 1], groupHeight, pages[i..])
    {
      var img := pages[i];
      ghost var current := groups[|groups| - 1];
      assert pages[i..][0] == img && pages[i..][1..] == pages[i + 1..];
      if groupHeight != 0 && groupHeight + |img.rows| > MAX_DOTS {
        Associative(done, [current], GroupsFrom([img], |img.rows|, pages[i + 1..]));
        done := groups;
        groups := groups + [[]];
        groupHeight := 0;
        assert [] + [img] == [img];
      }
      groups := groups[|groups| - 1 := groups[|groups| - 1] + [img]];
      groupHeight := groupHeight + |img.rows|;
    }
    GroupsLoseNothing([], 0, pages);
    assert [] + pages == pages;
  }

  /** Every page is in exactly one group, in the order of the receipt. */
  lemma {:induction false} GroupsLoseNothing(current: seq<Image>, height: nat, rest: seq<Image>)
    ensures Concat(GroupsFrom(current, height, rest)) == current + rest
    decreases |rest|
  {
    if rest == [] {
      ConcatOne(current);
    } else {
      var h := |rest[0].rows|;
      assert [rest[0]] + rest[1..] == rest;
      if height > 0 && height + h > MAX_DOTS {
        GroupsLoseNothing([rest[0]], h, rest[1..]);
        ConcatAppend([current], GroupsFrom([rest[0]], h, rest[1..]));
        ConcatOne(current);
      } else {
        GroupsLoseNothing(current + [rest[0]], height + h, rest[1..]);
        assert current + [rest[0]] + rest[1..] == current + rest;
      }
    }
  }

  /** A group the firmware takes: within the ceiling, or one page that cannot be cut. */
  ghost predicate Fits(group: seq<Image>) {
    group != [] && (Height(group) <= 2540 || |group| == 1)
  }

  ghost predicate AllFit(groups: seq<seq<Image>>) {
    forall i :: 0 <= i < |groups| ==> Fits(groups[i])
  }

  lemma {:induction false} GroupsFit(current: seq<Image>, rest: seq<Image>)
    requires Positive(current) && Positive(rest) && current + rest != []
    requires current == [] || Fits(current)
    ensures AllFit(GroupsFrom(current, Height(current), rest))
    decreases |rest|
  {
    if rest != [] {
      var p := rest[0];
      HeightOne(p);
      HeightAppend(current, [p]);
      if Height(current) > 0 && Height(current) + |p.rows| > MAX_DOTS {
        GroupsFit([p], rest[1..]);
      } else {
        if current != [] {
          assert Height(current) >= |current[0].rows|;
        }
        GroupsFit(current + [p], rest[1..]);
      }
    }
  }

  /** How many further groups are opened after one already `height` dots tall. */
  function Further(height: nat, rest: seq<Image>): nat
    decreases |rest|
  {
    if rest == [] then 0
    else
      var h := |rest[0].rows|;
      if height > 0 && height + h > MAX_DOTS then 1 + Further(h, rest[1..])
      else Further(height + h, rest[1..])
  }

  lemma {:induction false} CountGroups(current: seq<Image>, height: nat, rest: seq<Image>)
    ensures |GroupsFrom(current, height, rest)| == 1 + Further(height, rest)
    decreases |rest|
  {
    if rest != [] {
      var h := |rest[0].rows|;
      if height > 0 && height + h > MAX_DOTS {
        CountGroups([rest[0]], h, rest[1..]);
      } else {
        CountGroups(current + [rest[0]], height + h, rest[1..]);
      }
    }
  }

  /** A fuller open group never helps, and emptying it saves at most one group. */
  lemma {:induction false} FurtherBounds(low: nat, high: nat, rest: seq<Image>)
    requires 0 < low <= high
    ensures Further(low, rest) <= Further(high, rest) <= 1 + Further(low, rest)
    decreases |rest|
  {
    if rest != [] {
      var h := |rest[0].rows|;
      if high + h <= MAX_DOTS {
        FurtherBounds(low + h, high + h, rest[1..]);
      } else if low + h <= MAX_DOTS && h > 0 {
        FurtherBounds(h, low + h, rest[1..]);
      } else if low + h <= MAX_DOTS {
        ZeroThen(low, rest[1..]);
      }
    }
  }

  lemma {:induction false} ZeroThen(low: nat, rest: seq<Image>)
    requires low > 0
    ensures Further(0, rest) <= Further(low, rest) <= 1 + Further(0, rest)
    decreases |rest|
  {
    if rest != [] {
      var h := |rest[0].rows|;
      if h == 0 {
        if low + h > MAX_DOTS {
        } else {
          ZeroThen(low, rest[1..]);
        }
      } else if low + h <= MAX_DOTS {
        FurtherBounds(h, low + h, rest[1..]);
      }
    }
  }

  /** The pages of one legal group are placed without opening another one. */
  lemma {:induction false} PlaceGroup(height: nat, group: seq<Image>, rest: seq<Image>)
    requires group == [] || height + Height(group) <= MAX_DOTS || (height == 0 && |group| == 1)
    ensures Further(height, group + rest) == Further(height + Height(group), rest)
    decreases |group|
  {
    if group == [] {
      assert group + rest == rest;
    } else {
      assert (group + rest)[1..] == group[1..] + rest;
      PlaceGroup(height + |group[0].rows|, group[1..], rest);
    }
  }

  /** Filling group by group as the loop does is never behind a legal partition of what
      is still to come, whatever the open group already holds. */
  lemma {:induction false} NeverBehind(height: nat, others: seq<seq<Image>>)
    requires height > 0 && AllFit(others)
    requires forall i :: 0 <= i < |others| ==> Height(others[i]) > 0
    ensures Further(height, Concat(others)) <= |others|
    decreases |others|
  {
    if others != [] {
      var g, after := others[0], Concat(others[1..]);
      NeverBehind(Height(g), others[1..]);
      PlaceGroup(0, g, after);
      ZeroThen(height, Concat(others));
    }
  }

  /** The cut of a receipt into print jobs: legal, and no legal contiguous cut has fewer. */
  lemma GroupingIsOptimal(pages: seq<Image>, other: seq<seq<Image>>)
    requires pages != [] && Positive(pages)
    requires Concat(other) == pages && AllFit(other)
    ensures AllFit(GroupsFrom([], 0, pages))
    ensures |GroupsFrom([], 0, pages)| <= |other|
  {
    GroupsFit([], pages);
    CountGroups([], 0, pages);
    PartsPositive(other);
    var g, after := other[0], Concat(other[1..]);
    NeverBehind(Height(g), other[1..]);
    PlaceGroup(0, g, after);
  }

  lemma {:induction false} PartsPositive(groups: seq<seq<Image>>)
    requires Positive(Concat(groups))
    requires AllFit(groups)
    ensures forall i :: 0 <= i < |groups| ==> Height(groups[i]) > 0
  {
    if groups != [] {
      var whole := Concat(groups);
      assert whole == groups[0] + Concat(groups[1..]);
      assert groups[0][0] == whole[0];
      var tail := Concat(groups[1..]);
      assert forall i :: 0 <= i < |tail| ==> tail[i] == whole[|groups[0]| + i];
      PartsPositive(groups[1..]);
      assert forall i :: 1 <= i < |groups| ==> groups[i] == groups[1..][i - 1];
    }
  }
}
