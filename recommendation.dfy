/** Post-processing of the crop classifier's output (app.py, suggesveg): one
    record per class with its probability and picture, ranked by probability
    with the highest first, and cut to the first five. The classifier itself
    is not modelled: its class names and per-class probabilities are inputs. */
module Recommendation {
  import opened Wrappers

  /** Picture shown for each crop the classifier knows about. */
  const CropImageMap: map<string, string> := map[
    "rice" := "images/rice.jpeg",
    "maize" := "images/maize.jpg",
    "chickpea" := "images/chilly.jpeg",
    "kidneybeans" := "images/rice.jpeg",
    "banana" := "images/banana.jpg",
    "apple" := "images/apple.jpg",
    "pomegranate" := "images/pomergranate.jpeg",
    "muskmelon" := "images/muskmelon.jpg",
    "papaya" := "images/papaya.jpeg",
    "mango" := "images/mango.jpg",
    "mothbeans" := "images/mothbeans.jpeg",
    "mungbean" := "images/mungbean.jpeg",
    "jute" := "images/jute.jpg",
    "blackgram" := "images/blackgram.jpg",
    "coconut" := "images/coconut.jpg",
    "watermelon" := "images/watermelon.jpeg",
    "coffee" := "images/coffee.jpeg",
    "cotton" := "images/Cotton.jpg",
    "grapes" := "images/grapes.jpg",
    "orange" := "images/Orange.jpg",
    "pigeonpeas" := "images/pigeonpeas.jpeg",
    "lentil" := "images/lentil.jpeg"
  ]

  /** The picture of a crop, or None for a crop without one. */
  function ImageFor(name: string): (img: Option<string>)
    ensures img.Some? <==> name in CropImageMap
    ensures img.Some? ==> img.value == CropImageMap[name]
  {
    if name in CropImageMap then Some(CropImageMap[name]) else None
  }

  /** How many recommendations are kept after ranking. */
  const TopCount: nat := 5

  /** The probability reported for the single prediction of a classifier
      that gives no probabilities. */
  const CertainPercent: real := 100.0

  /** One recommendation: the crop, its probability as a percentage, and its
      picture. */
  datatype Record = Record(name: string, prob: real, img: Option<string>)

  /** What the classifier gives back: one percentage per class, or, for a
      classifier without probabilities, only the name of the predicted crop. */
  datatype ClassifierOutput = Probabilities(percents: seq<real>) | Prediction(name: string)

  /** Failure of a request: the probability vector has no entry at `index`. */
  datatype SuggestError = MissingProbability(index: nat)

  function Min(a: nat, b: nat): nat
  {
    if a <= b then a else b
  }

  /** The record for class `i`: its name, its own probability, its picture. */
  function RecordFor(classes: seq<string>, probs: seq<real>, i: nat): Record
    requires i < |classes| && i < |probs|
  {
    Record(classes[i], probs[i], ImageFor(classes[i]))
  }

  /** The records of all classes, in class order. */
  function Records(classes: seq<string>, probs: seq<real>): seq<Record>
    requires |classes| <= |probs|
  {
    seq(|classes|, i requires 0 <= i < |classes| => RecordFor(classes, probs, i))
  }

  /** A record belongs to the list exactly when it is some class paired with
      its own probability and its own picture. */
  lemma RecordsOfClasses(classes: seq<string>, probs: seq<real>, x: Record)
    requires |classes| <= |probs|
    ensures x in Records(classes, probs) <==>
            exists i :: 0 <= i < |classes| &&
                        x == Record(classes[i], probs[i], ImageFor(classes[i]))
  {
    var recs := Records(classes, probs);
    if x in recs {
      var i :| 0 <= i < |recs| && recs[i] == x;
      assert 0 <= i < |classes| && x == Record(classes[i], probs[i], ImageFor(classes[i]));
    }
    if exists i :: 0 <= i < |classes| &&
                   x == Record(classes[i], probs[i], ImageFor(classes[i])) {
      var i :| 0 <= i < |classes| &&
               x == Record(classes[i], probs[i], ImageFor(classes[i]));
      assert recs[i] == x;
    }
  }

  /** The loop that appends one record per class. A probability vector
      shorter than the class list stops it with an error. */
  method BuildRecommendations(classes: seq<string>, probs: seq<real>)
    returns (res: Result<seq<Record>, SuggestError>)
    ensures res.Failure? <==> |probs| < |classes|
    ensures res.Failure? ==> res.error == MissingProbability(|probs|)
    ensures res.Success? ==> res.value == Records(classes, probs)
  {
    var recommendations: seq<Record> := [];
    var i := 0;
    while i < |classes|
      invariant 0 <= i <= |classes| && i <= |probs|
      invariant |recommendations| == i
      invariant forall k :: 0 <= k < i ==> recommendations[k] == RecordFor(classes, probs, k)
    {
      if i >= |probs| {
        return Failure(MissingProbability(i));
      }
      var img := ImageFor(classes[i]);
      recommendations := recommendations + [Record(classes[i], probs[i], img)];
      i := i + 1;
    }
    res := Success(recommendations);
  }

  /** Highest probability first. */
  predicate SortedByProb(s: seq<Record>)
  {
    forall i, j :: 0 <= i < j < |s| ==> s[i].prob >= s[j].prob
  }

  /** The records of `s` whose probability is `v`, in their order in `s`. */
  function WithProb(s: seq<Record>, v: real): seq<Record>
  {
    if s == [] then []
    else (if s[0].prob == v then [s[0]] else []) + WithProb(s[1..], v)
  }

  /** `r` is `s` sorted by probability, highest first, by a stable sort: for
      every probability, the records with that probability appear in `r` in
      exactly the order they have in `s`. */
  ghost predicate IsStableRanking(r: seq<Record>, s: seq<Record>)
  {
    SortedByProb(r) && forall v :: WithProb(r, v) == WithProb(s, v)
  }

  /** The in-place `sort(key=prob, reverse=True)`: sorts by insertion, each
      record going after every record of at least its probability. */
  method RankByProb(recs: seq<Record>) returns (ranked: seq<Record>)
    ensures IsStableRanking(ranked, recs)
    ensures multiset(ranked) == multiset(recs)
  {
    ranked := [];
    var i := 0;
    while i < |recs|
      invariant 0 <= i <= |recs|
      invariant IsStableRanking(ranked, recs[..i])
    {
      var x := recs[i];
      var p := InsertionPoint(ranked, x);
      InsertKeepsStableRanking(ranked, recs[..i], x, p);
      assert recs[..i + 1] == recs[..i] + [x];
      ranked := ranked[..p] + [x] + ranked[p..];
      i := i + 1;
    }
    assert recs[..i] == recs;
    StableRankingIsPermutation(ranked, recs);
  }

  /** Where `x` goes in `ranked`: after every record of at least its
      probability, before the first record of a lower one. */
  method InsertionPoint(ranked: seq<Record>, x: Record) returns (p: nat)
    ensures p <= |ranked|
    ensures forall k :: 0 <= k < p ==> ranked[k].prob >= x.prob
    ensures p < |ranked| ==> ranked[p].prob < x.prob
  {
    p := 0;
    while p < |ranked| && ranked[p].prob >= x.prob
      invariant p <= |ranked|
      invariant forall k :: 0 <= k < p ==> ranked[k].prob >= x.prob
    {
      p := p + 1;
    }
  }

  /** Selecting by probability distributes over concatenation. */
  lemma {:induction false} WithProbAppend(a: seq<Record>, b: seq<Record>, v: real)
    ensures WithProb(a + b, v) == WithProb(a, v) + WithProb(b, v)
  {
    if a == [] {
      assert a + b == b;
    } else {
      var head := if a[0].prob == v then [a[0]] else [];
      assert (a + b)[0] == a[0];
      assert (a + b)[1..] == a[1..] + b;
      WithProbAppend(a[1..], b, v);
      calc {
        WithProb(a + b, v);
        head + WithProb(a[1..] + b, v);
        head + (WithProb(a[1..], v) + WithProb(b, v));
        (head + WithProb(a[1..], v)) + WithProb(b, v);
      }
    }
  }

  /** WithProb on three records, unfolded. */
  lemma WithProbOfThree(x: Record, y: Record, z: Record, v: real)
    ensures WithProb([x, y, z], v) ==
            (if x.prob == v then [x] else []) + (if y.prob == v then [y] else []) +
            (if z.prob == v then [z] else [])
  {
    assert [x, y, z][1..] == [y, z] && [y, z][1..] == [z] && [z][1..] == [];
    var wz := if z.prob == v then [z] else [];
    var wy := if y.prob == v then [y] else [];
    assert WithProb([z], v) == wz + [];
    assert WithProb([y, z], v) == wy + wz;
  }

  /** No record of probability `v`, nothing selected. */
  lemma {:induction false} WithProbAbsent(s: seq<Record>, v: real)
    requires forall k :: 0 <= k < |s| ==> s[k].prob != v
    ensures WithProb(s, v) == []
  {
    if s != [] {
      WithProbAbsent(s[1..], v);
    }
  }

  /** Inserting `x` at the first position whose record has a lower
      probability keeps `r` a stable ranking of `s` extended by `x`. */
  lemma InsertKeepsStableRanking(r: seq<Record>, s: seq<Record>,
                                 x: Record, p: nat)
    requires IsStableRanking(r, s)
    requires p <= |r|
    requires forall k :: 0 <= k < p ==> r[k].prob >= x.prob
    requires p < |r| ==> r[p].prob < x.prob
    ensures IsStableRanking(r[..p] + [x] + r[p..], s + [x])
  {
    InsertKeepsSorted(r, x, p);
    forall v
      ensures WithProb(r[..p] + [x] + r[p..], v) == WithProb(s + [x], v)
    {
      InsertKeepsTies(r, x, p, v);
      WithProbAppend(s, [x], v);
    }
  }

  lemma InsertKeepsSorted(r: seq<Record>, x: Record, p: nat)
    requires SortedByProb(r)
    requires p <= |r|
    requires forall k :: 0 <= k < p ==> r[k].prob >= x.prob
    requires p < |r| ==> r[p].prob < x.prob
    ensures SortedByProb(r[..p] + [x] + r[p..])
  {
    var n := r[..p] + [x] + r[p..];
    forall i, j | 0 <= i < j < |n|
      ensures n[i].prob >= n[j].prob
    {
      if j > p && i < p {
        assert n[i] == r[i] && n[j] == r[j - 1];
      } else if j > p && i > p {
        assert n[i] == r[i - 1] && n[j] == r[j - 1];
      } else if j > p {
        assert n[j] == r[j - 1] && r[p].prob >= r[j - 1].prob;
      }
    }
  }

  /** Inserting `x` there puts it after every record of its own
      probability. */
  lemma InsertKeepsTies(r: seq<Record>, x: Record, p: nat, v: real)
    requires SortedByProb(r)
    requires p <= |r|
    requires p < |r| ==> r[p].prob < x.prob
    ensures WithProb(r[..p] + [x] + r[p..], v) == WithProb(r, v) + WithProb([x], v)
  {
    assert [x][1..] == [];
    if v == x.prob {
      assert WithProb([x], v) == [x];
      TiesAtInsertedProb(r, x, p);
    } else {
      assert WithProb([x], v) == [];
      TiesAtOtherProb(r, x, p, v);
      assert WithProb(r, v) + [] == WithProb(r, v);
    }
  }

  /** Among the records of `x`'s own probability, the inserted `x` comes
      last. */
  lemma TiesAtInsertedProb(r: seq<Record>, x: Record, p: nat)
    requires SortedByProb(r)
    requires p <= |r|
    requires p < |r| ==> r[p].prob < x.prob
    ensures WithProb(r[..p] + [x] + r[p..], x.prob) == WithProb(r, x.prob) + [x]
  {
    var front, back, v := r[..p], r[p..], x.prob;
    assert r == front + back;
    assert [x][1..] == [];
    NothingTiesBelow(r, x, p);
    calc {
      WithProb(front + [x] + back, v);
    == { WithProbAppend(front + [x], back, v); }
      WithProb(front + [x], v) + WithProb(back, v);
    == { assert WithProb(front + [x], v) + [] == WithProb(front + [x], v); }
      WithProb(front + [x], v);
    == { WithProbAppend(front, [x], v); assert WithProb([x], v) == [x]; }
      WithProb(front, v) + [x];
    == { WithProbAppend(front, back, v); assert WithProb(front, v) + [] == WithProb(front, v); }
      WithProb(r, v) + [x];
    }
  }

  /** Records of any other probability keep their order around `x`. */
  lemma TiesAtOtherProb(r: seq<Record>, x: Record, p: nat, v: real)
    requires p <= |r|
    requires v != x.prob
    ensures WithProb(r[..p] + [x] + r[p..], v) == WithProb(r, v)
  {
    var front, back := r[..p], r[p..];
    assert r == front + back;
    assert [x][1..] == [];
    calc {
      WithProb(front + [x] + back, v);
    == { WithProbAppend(front + [x], back, v); }
      WithProb(front + [x], v) + WithProb(back, v);
    == { WithProbAppend(front, [x], v); assert WithProb([x], v) == [];
         assert WithProb(front, v) + [] == WithProb(front, v); }
      WithProb(front, v) + WithProb(back, v);
    == { WithProbAppend(front, back, v); }
      WithProb(r, v);
    }
  }

  /** Past the insertion point no record has the probability of `x`. */
  lemma NothingTiesBelow(r: seq<Record>, x: Record, p: nat)
    requires SortedByProb(r)
    requires p <= |r|
    requires p < |r| ==> r[p].prob < x.prob
    ensures WithProb(r[p..], x.prob) == []
  {
    forall k | 0 <= k < |r[p..]|
      ensures r[p..][k].prob != x.prob
    {
      assert r[p + k].prob <= r[p].prob;
    }
    WithProbAbsent(r[p..], x.prob);
  }

  /** How often `x` occurs is decided by the records of its probability. */
  lemma {:induction false} CountWithinProb(s: seq<Record>, x: Record)
    ensures multiset(s)[x] == multiset(WithProb(s, x.prob))[x]
  {
    if s != [] {
      CountWithinProb(s[1..], x);
      assert s == [s[0]] + s[1..];
    }
  }

  /** A stable ranking holds the same records as its input: it is a
      permutation. */
  lemma StableRankingIsPermutation(r: seq<Record>, s: seq<Record>)
    requires IsStableRanking(r, s)
    ensures multiset(r) == multiset(s)
    ensures |r| == |s|
  {
    forall x
      ensures multiset(r)[x] == multiset(s)[x]
    {
      CountWithinProb(r, x);
      CountWithinProb(s, x);
    }
    assert multiset(r) == multiset(s);
    assert |r| == |multiset(r)| == |multiset(s)| == |s|;
  }

  /** Two stable rankings of the same input are equal: sorting by
      probability, highest first, with ties kept in input order, leaves no
      choice. */
  lemma StableRankingUnique(r1: seq<Record>, r2: seq<Record>,
                            s: seq<Record>)
    requires IsStableRanking(r1, s) && IsStableRanking(r2, s)
    ensures r1 == r2
  {
    RankingOfRankedIsSame(r1, r2);
    RankingOfRankedIsSame(r2, r1);
  }

  /** A stable ranking leaves input that is already highest first unchanged;
      in particular, when all probabilities are equal the class order is
      kept. */
  lemma {:induction false} RankingOfRankedIsSame(r1: seq<Record>, r2: seq<Record>)
    requires IsStableRanking(r1, r2) && SortedByProb(r2)
    ensures r1 == r2
  {
    StableRankingIsPermutation(r1, r2);
    if r1 != [] {
      HeadsAgree(r1, r2);
      TailsAgree(r1, r2);
      RankingOfRankedIsSame(r1[1..], r2[1..]);
      assert r1 == [r1[0]] + r1[1..] && r2 == [r2[0]] + r2[1..];
    }
  }

  /** A sorted sequence starts with its highest probability. */
  lemma SortedHeadIsHighest(r: seq<Record>, x: Record)
    requires SortedByProb(r) && x in r
    ensures x.prob <= r[0].prob
  {
    var i :| 0 <= i < |r| && r[i] == x;
  }

  /** Two stable rankings of each other start with the same record. */
  lemma HeadsAgree(r1: seq<Record>, r2: seq<Record>)
    requires IsStableRanking(r1, r2) && SortedByProb(r2)
    requires multiset(r1) == multiset(r2) && r1 != []
    ensures r2 != [] && r1[0] == r2[0]
  {
    var a := r1[0];
    assert a in multiset(r2);
    var b := r2[0];
    assert b in multiset(r1);
    SortedHeadIsHighest(r2, a);
    SortedHeadIsHighest(r1, b);
    assert a.prob == b.prob;
    assert WithProb(r1, a.prob) == [a] + WithProb(r1[1..], a.prob);
    assert WithProb(r2, a.prob) == [b] + WithProb(r2[1..], a.prob);
    assert WithProb(r1, a.prob)[0] == a && WithProb(r2, a.prob)[0] == b;
  }

  /** Removing the same first record from two sequences with equal
      per-probability records leaves sequences with equal ones. */
  lemma TailsAgree(r1: seq<Record>, r2: seq<Record>)
    requires r1 != [] && r2 != [] && r1[0] == r2[0]
    requires forall v :: WithProb(r1, v) == WithProb(r2, v)
    ensures forall v :: WithProb(r1[1..], v) == WithProb(r2[1..], v)
  {
    var a := r1[0];
    assert r1 == [a] + r1[1..] && r2 == [a] + r2[1..];
    forall v
      ensures WithProb(r1[1..], v) == WithProb(r2[1..], v)
    {
      WithProbAppend([a], r1[1..], v);
      WithProbAppend([a], r2[1..], v);
      var head := WithProb([a], v);
      assert WithProb(r1[1..], v) == WithProb(r1, v)[|head|..];
      assert WithProb(r2[1..], v) == WithProb(r2, v)[|head|..];
    }
  }

  /** `top` is what the first TopCount entries of a stable ranking of `all`
      must be: as many as there are (at most TopCount), highest first, each a
      record of `all`, with the records of each probability a prefix of
      those in `all` (ties keep input order), and no record left out having
      a higher probability than a record kept. The last clause compares
      records by value, so when two classes give the same record it does not
      say how many copies are kept; Suggest states its result exactly as the
      first TopCount entries of a stable ranking. */
  ghost predicate IsTopRanked(top: seq<Record>, all: seq<Record>)
  {
    && |top| == Min(TopCount, |all|)
    && SortedByProb(top)
    && (forall x :: x in top ==> x in all)
    && (forall v :: WithProb(top, v) <= WithProb(all, v))
    && (forall x, y :: x in all && x !in top && y in top ==> x.prob <= y.prob)
  }

  /** Cutting a stable ranking to its first TopCount entries gives the top
      recommendations. */
  lemma TopOfStableRanking(ranked: seq<Record>, all: seq<Record>)
    requires IsStableRanking(ranked, all)
    ensures IsTopRanked(ranked[..Min(TopCount, |ranked|)], all)
  {
    StableRankingIsPermutation(ranked, all);
    var m := Min(TopCount, |ranked|);
    var top := ranked[..m];
    assert ranked == top + ranked[m..];
    forall x | x in top
      ensures x in all
    {
      assert x in multiset(ranked);
    }
    forall v
      ensures WithProb(top, v) <= WithProb(all, v)
    {
      WithProbAppend(top, ranked[m..], v);
    }
    forall x, y | x in all && x !in top && y in top
      ensures x.prob <= y.prob
    {
      assert x in multiset(all);
      LeftOutRanksLower(ranked, m, x, y);
    }
  }

  /** In a sorted sequence, a record beyond the first `m` has no higher
      probability than any of the first `m`. */
  lemma LeftOutRanksLower(ranked: seq<Record>, m: nat, x: Record, y: Record)
    requires SortedByProb(ranked) && m <= |ranked|
    requires x in ranked && x !in ranked[..m] && y in ranked[..m]
    ensures x.prob <= y.prob
  {
    var j :| 0 <= j < |ranked| && ranked[j] == x;
    var i :| 0 <= i < m && ranked[..m][i] == y;
  }

  /** The recommendation step of suggesveg. With probabilities: build one
      record per class, rank them and keep the first TopCount; a probability
      vector shorter than the class list is an error. Without: the single
      predicted crop, at 100 percent. */
  method Suggest(classes: seq<string>, output: ClassifierOutput)
    returns (res: Result<seq<Record>, SuggestError>)
    ensures output.Prediction? ==>
              res == Success([Record(output.name, CertainPercent, ImageFor(output.name))])
    ensures output.Probabilities? ==> (res.Failure? <==> |output.percents| < |classes|)
    ensures output.Probabilities? && res.Success? ==>
              IsTopRanked(res.value, Records(classes, output.percents))
    ensures output.Probabilities? && res.Success? ==>
              exists r :: IsStableRanking(r, Records(classes, output.percents)) &&
                          res.value == r[..Min(TopCount, |r|)]
  {
    match output
    case Probabilities(percents) =>
      var built := BuildRecommendations(classes, percents);
      if built.Failure? {
        return Failure(built.error);
      }
      var ranked := RankByProb(built.value);
      StableRankingIsPermutation(ranked, built.value);
      TopOfStableRanking(ranked, built.value);
      res := Success(ranked[..Min(TopCount, |ranked|)]);
    case Prediction(name) =>
      res := Success([Record(name, CertainPercent, ImageFor(name))]);
  }

  /** Ties keep class order: when the first and third classes tie below the
      second, the ranking is the second, then the first, then the third. */
  lemma TiesKeepClassOrder(r: seq<Record>, a: Record, b: Record,
                           c: Record)
    requires a.prob == c.prob < b.prob
    requires IsStableRanking(r, [a, b, c])
    ensures r == [b, a, c]
  {
    var t := [b, a, c];
    forall v
      ensures WithProb(r, v) == WithProb(t, v)
    {
      WithProbOfThree(a, b, c, v);
      WithProbOfThree(b, a, c, v);
      if v == b.prob {
        assert WithProb([a, b, c], v) == [b] == WithProb(t, v);
      }
    }
    RankingOfRankedIsSame(r, t);
  }
}
