/** Sorting a list into classes: what the classes hold together is what the list holds. */
module Partition {
  import opened Prelude
  import opened Lists

  /** The elements of one class, in order. */
  function Pick<A, S(==)>(classOf: A -> S, xs: seq<A>, class_: S): seq<A> {
    if xs == [] then []
    else (if classOf(xs[0]) == class_ then [xs[0]] else []) + Pick(classOf, xs[1..], class_)
  }

  function PickAny<A, S(==)>(classOf: A -> S, xs: seq<A>, classes: seq<S>): seq<A> {
    if xs == [] then []
    else (if classOf(xs[0]) in classes then [xs[0]] else []) + PickAny(classOf, xs[1..], classes)
  }

  /** The images of the elements that have one, each once, in the order of their first elements. */
  function DistinctImages<A, B(==)>(f: A -> Option<B>, xs: seq<A>): seq<B> {
    if xs == [] then [] else
      var n := |xs| - 1;
      var images, last := DistinctImages(f, xs[..n]), f(xs[n]);
      if last.Some? && last.value !in images then images + [last.value] else images
  }

  ghost predicate HasImage<A, B>(f: A -> Option<B>, xs: seq<A>, b: B) {
    exists i :: 0 <= i < |xs| && f(xs[i]) == Some(b)
  }

  ghost predicate AllDistinct<B>(bs: seq<B>) {
    forall i, j :: 0 <= i < j < |bs| ==> bs[i] != bs[j]
  }

  lemma {:induction false} HasImageSnoc<A, B>(f: A -> Option<B>, xs: seq<A>, b: B)
    requires xs != []
    ensures HasImage(f, xs, b) <==> HasImage(f, xs[..|xs| - 1], b) || f(xs[|xs| - 1]) == Some(b)
  {
    var n := |xs| - 1;
    if HasImage(f, xs[..n], b) {
      var i :| 0 <= i < n && f(xs[..n][i]) == Some(b);
      assert f(xs[i]) == Some(b);
    }
    if HasImage(f, xs, b) {
      var i :| 0 <= i < |xs| && f(xs[i]) == Some(b);
      assert i < n ==> xs[..n][i] == xs[i];
    }
  }

  lemma {:induction false} DistinctImagesSpec<A, B>(f: A -> Option<B>, xs: seq<A>)
    ensures forall b :: b in DistinctImages(f, xs) <==> HasImage(f, xs, b)
    ensures AllDistinct(DistinctImages(f, xs))
  {
    if xs != [] {
      DistinctImagesSpec(f, xs[..|xs| - 1]);
      forall b ensures b in DistinctImages(f, xs) <==> HasImage(f, xs, b) {
        HasImageSnoc(f, xs, b);
      }
    }
  }

  /** The images of all elements, in any order. */
  function Bag<A, B>(f: A -> seq<B>, xs: seq<A>): multiset<B> {
    multiset(FlatMap(f, xs))
  }

  lemma {:induction false} BagAppend<A, B>(f: A -> seq<B>, xs: seq<A>, ys: seq<A>)
    ensures Bag(f, xs + ys) == Bag(f, xs) + Bag(f, ys)
  {
    FlatMapAppend(f, xs, ys);
  }

  lemma {:induction false} BagOne<A, B>(f: A -> seq<B>, x: A)
    ensures Bag(f, [x]) == multiset(f(x))
  {
    FlatMapOne(f, x);
  }

  lemma {:induction false} BagWithout<A, B>(f: A -> seq<B>, xs: seq<A>, i: nat)
    requires i < |xs|
    ensures Bag(f, xs) == multiset(f(xs[i])) + Bag(f, xs[..i] + xs[i + 1..])
  {
    BagAppend(f, xs[..i] + [xs[i]], xs[i + 1..]);
    BagAppend(f, xs[..i], [xs[i]]);
    BagOne(f, xs[i]);
    BagAppend(f, xs[..i], xs[i + 1..]);
    assert xs == xs[..i] + [xs[i]] + xs[i + 1..];
    hide Bag;
  }

  lemma {:induction false} SameWithoutHead<A>(xs: seq<A>, ys: seq<A>, i: nat)
    requires xs != [] && multiset(xs) == multiset(ys) && i < |ys| && ys[i] == xs[0]
    ensures multiset(xs[1..]) == multiset(ys[..i] + ys[i + 1..])
  {
    assert xs == [xs[0]] + xs[1..];
    assert ys == ys[..i] + [xs[0]] + ys[i + 1..];
    assert multiset(xs) - multiset{xs[0]} == multiset(xs[1..]);
    assert multiset(ys) - multiset{xs[0]} == multiset(ys[..i] + ys[i + 1..]);
  }

  lemma {:induction false} HeadIn<A>(xs: seq<A>, ys: seq<A>) returns (i: nat)
    requires xs != [] && multiset(xs) == multiset(ys)
    ensures i < |ys| && ys[i] == xs[0]
  {
    assert xs[0] in multiset(xs);
    assert xs[0] in ys;
    i :| 0 <= i < |ys| && ys[i] == xs[0];
  }

  /** Reordering a list does not change what its elements hold together. */
  lemma {:induction false} BagReordered<A, B>(f: A -> seq<B>, xs: seq<A>, ys: seq<A>)
    requires multiset(xs) == multiset(ys)
    ensures Bag(f, xs) == Bag(f, ys)
    decreases |xs|
  {
    if xs == [] {
      assert |multiset(ys)| == 0;
    } else {
      hide Bag;
      var i := HeadIn(xs, ys);
      SameWithoutHead(xs, ys, i);
      BagReordered(f, xs[1..], ys[..i] + ys[i + 1..]);
      BagWithout(f, ys, i);
      BagWithout(f, xs, 0);
      assert xs[..0] + xs[1..] == xs[1..];
    }
  }

  /** What is picked from one element more. */
  lemma {:induction false} BagPick<A, S, B>(classOf: A -> S, f: A -> seq<B>, xs: seq<A>, class_: S)
    requires xs != []
    ensures Bag(f, Pick(classOf, xs, class_))
         == (if classOf(xs[0]) == class_ then multiset(f(xs[0])) else multiset{}) + Bag(f, Pick(classOf, xs[1..], class_))
  {
    BagAppend(f, [xs[0]], Pick(classOf, xs[1..], class_));
    BagOne(f, xs[0]);
    assert [] + Pick(classOf, xs[1..], class_) == Pick(classOf, xs[1..], class_);
  }

  lemma {:induction false} BagPickAny<A, S, B>(classOf: A -> S, f: A -> seq<B>, xs: seq<A>, classes: seq<S>)
    requires xs != []
    ensures Bag(f, PickAny(classOf, xs, classes))
         == (if classOf(xs[0]) in classes then multiset(f(xs[0])) else multiset{})
          + Bag(f, PickAny(classOf, xs[1..], classes))
  {
    BagAppend(f, [xs[0]], PickAny(classOf, xs[1..], classes));
    BagOne(f, xs[0]);
    assert [] + PickAny(classOf, xs[1..], classes) == PickAny(classOf, xs[1..], classes);
  }

  /** One class more adds what that class holds. */
  lemma {:induction false} OneMore<A, S, B>(classOf: A -> S, f: A -> seq<B>, xs: seq<A>, class_: S, classes: seq<S>)
    requires class_ !in classes
    ensures Bag(f, PickAny(classOf, xs, [class_] + classes))
         == Bag(f, Pick(classOf, xs, class_)) + Bag(f, PickAny(classOf, xs, classes))
  {
    if xs != [] {
      OneMore(classOf, f, xs[1..], class_, classes);
      BagPickAny(classOf, f, xs, [class_] + classes);
      BagPickAny(classOf, f, xs, classes);
      BagPick(classOf, f, xs, class_);
      hide Bag, Pick, PickAny;
    }
  }

  /** Three classes more. */
  lemma {:induction false} ThreeMore<A, S, B>(classOf: A -> S, f: A -> seq<B>, xs: seq<A>, p: S, q: S, r: S, classes: seq<S>)
    requires p != q && p != r && q != r && p !in classes && q !in classes && r !in classes
    ensures Bag(f, PickAny(classOf, xs, [p] + ([q] + ([r] + classes))))
         == Bag(f, Pick(classOf, xs, p)) + Bag(f, Pick(classOf, xs, q)) + Bag(f, Pick(classOf, xs, r))
          + Bag(f, PickAny(classOf, xs, classes))
  {
    OneMore(classOf, f, xs, r, classes);
    OneMore(classOf, f, xs, q, [r] + classes);
    OneMore(classOf, f, xs, p, [q] + ([r] + classes));
    hide Bag, Pick, PickAny;
  }

  lemma {:induction false} PickNone<A, S>(classOf: A -> S, xs: seq<A>)
    ensures PickAny(classOf, xs, []) == []
  {
    if xs != [] {
      PickNone(classOf, xs[1..]);
    }
  }

  lemma {:induction false} PickEach<A, S>(classOf: A -> S, xs: seq<A>, class_: S)
    requires forall i :: 0 <= i < |xs| ==> classOf(xs[i]) == class_
    ensures Pick(classOf, xs, class_) == xs
  {
    if xs != [] {
      PickEach(classOf, xs[1..], class_);
    }
  }

  /** Picking the elements of some classes is picking those with a mark. */
  lemma {:induction false} PickSame<A, S>(classOf: A -> S, marked: A -> bool, xs: seq<A>, classes: seq<S>)
    requires forall i :: 0 <= i < |xs| ==> (classOf(xs[i]) in classes <==> marked(xs[i]))
    ensures PickAny(classOf, xs, classes) == Pick(marked, xs, true)
  {
    if xs != [] {
      PickSame(classOf, marked, xs[1..], classes);
    }
  }

  /** What is picked comes from the list. */
  lemma {:induction false} PickedFrom<A, S>(classOf: A -> S, xs: seq<A>, class_: S, x: A)
    requires x in Pick(classOf, xs, class_)
    ensures x in xs && classOf(x) == class_
  {
    if xs[0] != x || classOf(x) != class_ {
      PickedFrom(classOf, xs[1..], class_, x);
    }
  }

  /** Elements that hold at least one thing each: they hold one each if and only if nothing is left over. */
  lemma {:induction false} OneEachIff<A, B>(f: A -> seq<B>, first: A -> B, more: A -> seq<B>, xs: seq<A>)
    requires forall i :: 0 <= i < |xs| ==> f(xs[i]) == [first(xs[i])] + more(xs[i])
    ensures |FlatMap(f, xs)| >= |xs|
    ensures Bag(f, xs) == multiset(Images(first, xs)) <==> forall i :: 0 <= i < |xs| ==> more(xs[i]) == []
    ensures |FlatMap(f, xs)| == |xs| <==> forall i :: 0 <= i < |xs| ==> more(xs[i]) == []
  {
    BagIsFirstsAndMore(f, first, more, xs);
    NothingMoreIff(more, xs);
    var a, b := multiset(Images(first, xs)), Bag(more, xs);
    assert a + b == a ==> b == multiset{} by { assert (a + b) - a == b; }
    assert |a + b| == |a| + |b|;
    assert |Bag(f, xs)| == |FlatMap(f, xs)|;
    assert b == multiset{} <==> |b| == 0;
    hide FlatMap;
  }

  /** `xs.map(f)`. */
  function Images<A, B>(f: A -> B, xs: seq<A>): (images: seq<B>)
    ensures |images| == |xs|
  {
    seq(|xs|, i requires 0 <= i < |xs| => f(xs[i]))
  }

  lemma {:induction false} BagIsFirstsAndMore<A, B>(f: A -> seq<B>, first: A -> B, more: A -> seq<B>, xs: seq<A>)
    requires forall i :: 0 <= i < |xs| ==> f(xs[i]) == [first(xs[i])] + more(xs[i])
    ensures Bag(f, xs) == multiset(Images(first, xs)) + Bag(more, xs)
  {
    if xs != [] {
      assert xs == [xs[0]] + xs[1..];
      BagIsFirstsAndMore(f, first, more, xs[1..]);
      BagAppend(f, [xs[0]], xs[1..]);
      BagOne(f, xs[0]);
      BagAppend(more, [xs[0]], xs[1..]);
      BagOne(more, xs[0]);
      assert Images(first, xs) == [first(xs[0])] + Images(first, xs[1..]);
      assert multiset(f(xs[0])) == multiset{first(xs[0])} + multiset(more(xs[0]));
      hide Bag;
    }
  }

  lemma {:induction false} NothingMoreIff<A, B>(more: A -> seq<B>, xs: seq<A>)
    ensures Bag(more, xs) == multiset{} <==> forall i :: 0 <= i < |xs| ==> more(xs[i]) == []
  {
    if xs != [] {
      NothingMoreIff(more, xs[1..]);
      assert xs == [xs[0]] + xs[1..];
      assert FlatMap(more, xs) == more(xs[0]) + FlatMap(more, xs[1..]);
      assert forall i :: 0 < i < |xs| ==> xs[i] == xs[1..][i - 1];
      EmptyIff(more(xs[0]));
      EmptyIff(FlatMap(more, xs[1..]));
      EmptyIff(FlatMap(more, xs));
    }
  }

  lemma {:induction false} EmptyIff<B>(ys: seq<B>)
    ensures multiset(ys) == multiset{} <==> ys == []
  {
    if ys != [] {
      assert ys[0] in multiset(ys);
    }
  }
}
