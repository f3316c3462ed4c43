/** The record store adapter (lib/firestore.ts). The realtime database is two
    maps: `analyses/<id>` and `users/<uid>`. `push` draws keys from a counter,
    and the caller passes in the clock reading. */
module Firestore {
  import opened JsText
  import opened Types

  function DigitChar(d: nat): char
    requires d < 10
  {
    (48 + d) as char
  }

  /** The decimal digits of `n`. */
  function Digits(n: nat): (s: string)
    ensures |s| >= 1 && (n >= 10 ==> |s| >= 2)
  {
    if n < 10 then [DigitChar(n)] else Digits(n / 10) + [DigitChar(n % 10)]
  }

  lemma {:induction false} DigitsInjective(a: nat, b: nat)
    requires Digits(a) == Digits(b)
    ensures a == b
  {
    if a < 10 && b < 10 {
      assert Digits(a)[0] == Digits(b)[0];
    } else if a >= 10 && b >= 10 {
      var da, db := Digits(a), Digits(b);
      assert da[..|da| - 1] == Digits(a / 10) && db[..|db| - 1] == Digits(b / 10);
      DigitsInjective(a / 10, b / 10);
      assert da[|da| - 1] == DigitChar(a % 10) && db[|db| - 1] == DigitChar(b % 10);
    } else {
      assert false;
    }
  }

  /** The key `push` hands out for the n-th push. */
  function PushKey(n: nat): (k: string)
    ensures |k| >= 2 && k[0] == '-' && k[1..] == Digits(n)
  {
    "-" + Digits(n)
  }

  /** Distinct pushes get distinct keys, so an id is never reused. */
  lemma PushKeyInjective(a: nat, b: nat)
    requires PushKey(a) == PushKey(b)
    ensures a == b
  {
    assert PushKey(a)[1..] == Digits(a) && PushKey(b)[1..] == Digits(b);
    DigitsInjective(a, b);
  }

  /** The record `saveAnalysis` writes: every field copied from the input and
      the result, `company || ''`, and the clock reading as `createdAt`. */
  function NewDocument(id: string, input: AnalysisInput, result: GeminiAnalysisResult, now: int): (d: AnalysisDocument)
    ensures d.id == id && d.createdAt == now && d.userId == input.userId
    ensures d.company == (if input.company.Some? then input.company.value else "")
    ensures d.jobTitle == input.jobTitle && d.jobDescription == input.jobDescription && d.resumeText == input.resumeText
    ensures GeminiAnalysisResult(d.score, d.feedbackSummary, d.interviewQuestions, d.applicationQuestions) == result
  {
    AnalysisDocument(
      id := id,
      userId := input.userId,
      jobTitle := input.jobTitle,
      company := if Truthy(input.company) then input.company.value else "",
      jobDescription := input.jobDescription,
      resumeText := input.resumeText,
      score := result.score,
      feedbackSummary := result.feedbackSummary,
      interviewQuestions := result.interviewQuestions,
      applicationQuestions := result.applicationQuestions,
      createdAt := now)
  }

  /** The users map after `saveUser`: the first record for a uid is kept. */
  function UsersAfterSave(users: map<string, User>, uid: string, email: string, now: int): (m: map<string, User>)
    ensures uid in m && m[uid] == (if uid in users then users[uid] else User(uid, email, now))
    ensures forall k :: k != uid ==> (k in m <==> k in users)
    ensures forall k :: k in users ==> m[k] == users[k]
  {
    if uid in users then users else users[uid := User(uid, email, now)]
  }

  /** A second `saveUser` for the same uid, whatever its email and time,
      leaves the users map as the first one left it. */
  lemma SaveUserIdempotent(users: map<string, User>, uid: string, email1: string, now1: int, email2: string, now2: int)
    ensures UsersAfterSave(UsersAfterSave(users, uid, email1, now1), uid, email2, now2)
         == UsersAfterSave(users, uid, email1, now1)
  {
  }

  /** Ordered by `createdAt`, most recent first. */
  predicate NewestFirst(s: seq<AnalysisDocument>) {
    forall i, j :: 0 <= i < j < |s| ==> s[i].createdAt >= s[j].createdAt
  }

  /** Inserts `d` before the first record that is not newer than it, so that
      records with equal times keep their order. */
  function Insert(d: AnalysisDocument, s: seq<AnalysisDocument>): (r: seq<AnalysisDocument>)
    requires NewestFirst(s)
    ensures NewestFirst(r)
    ensures multiset(r) == multiset(s) + multiset{d}
  {
    if s == [] || s[0].createdAt <= d.createdAt then [d] + s
    else
      var rest := Insert(d, s[1..]);
      assert s == [s[0]] + s[1..];
      InsertBound(s[0], rest, s[1..], d);
      [s[0]] + rest
  }

  lemma InsertBound(top: AnalysisDocument, rest: seq<AnalysisDocument>, s: seq<AnalysisDocument>, d: AnalysisDocument)
    requires multiset(rest) == multiset(s) + multiset{d}
    requires forall j :: 0 <= j < |s| ==> s[j].createdAt <= top.createdAt
    requires d.createdAt < top.createdAt
    ensures forall j :: 0 <= j < |rest| ==> rest[j].createdAt <= top.createdAt
  {
    forall j | 0 <= j < |rest| ensures rest[j].createdAt <= top.createdAt {
      assert rest[j] in multiset(rest);
      if rest[j] != d {
        assert rest[j] in multiset(s);
      }
    }
  }

  /** `analyses.sort((a, b) => b.createdAt - a.createdAt)`: a stable sort,
      most recent first, that neither adds nor loses records. */
  function SortNewestFirst(s: seq<AnalysisDocument>): (r: seq<AnalysisDocument>)
    ensures NewestFirst(r)
    ensures multiset(r) == multiset(s)
  {
    if s == [] then []
    else
      assert s == [s[0]] + s[1..];
      Insert(s[0], SortNewestFirst(s[1..]))
  }

  /** The records stored under `ids` whose owner is `u`, in the order of `ids`. */
  function Owned(ids: seq<string>, m: map<string, AnalysisDocument>, u: string): (r: seq<AnalysisDocument>)
    requires forall k :: k in ids ==> k in m
    ensures forall d :: d in r ==> d.userId == u && d in m.Values
    ensures forall i :: 0 <= i < |ids| && m[ids[i]].userId == u ==> m[ids[i]] in r
  {
    if ids == [] then []
    else
      var last := ids[|ids| - 1];
      var init := ids[..|ids| - 1];
      assert forall i :: 0 <= i < |init| ==> init[i] == ids[i];
      assert last in ids && m[last] in m.Values;
      Owned(init, m, u) + (if m[last].userId == u then [m[last]] else [])
  }

  /** Run over every key of the map, `Owned` keeps exactly the owner's records. */
  lemma OwnedExactly(ids: seq<string>, m: map<string, AnalysisDocument>, u: string)
    requires forall k :: k in ids <==> k in m
    ensures forall d :: d in Owned(ids, m, u) <==> d in m.Values && d.userId == u
  {
    forall d | d in m.Values && d.userId == u ensures d in Owned(ids, m, u) {
      var k :| k in m && m[k] == d;
      var j :| 0 <= j < |ids| && ids[j] == k;
    }
  }

  /** Sorting neither adds nor drops a record. */
  lemma SortKeepsMembers(s: seq<AnalysisDocument>)
    ensures forall d :: d in SortNewestFirst(s) <==> d in s
  {
    var r := SortNewestFirst(s);
    forall d ensures d in r <==> d in s {
      assert d in r <==> d in multiset(r);
      assert d in s <==> d in multiset(s);
    }
  }

  class Database {
    /** `analyses/<id>` */
    var analyses: map<string, AnalysisDocument>
    /** The keys of `analyses` in push order. A query returns equal-valued
        children in key order, which for real push ids (time-prefixed) is
        creation order; this push order stands for it. */
    var order: seq<string>
    /** `users/<uid>` */
    var users: map<string, User>
    /** How many keys `push` has handed out. */
    var pushes: nat
    /** When set, every `set` rejects with this value (the database refuses writes). */
    const writeFailure: Option<Thrown>

    ghost predicate Valid()
      reads this
    {
      && (forall k :: k in analyses ==> analyses[k].id == k)
      && (forall k :: k in analyses <==> k in order)
      && (forall i, j :: 0 <= i < j < |order| ==> order[i] != order[j])
      && (forall n: nat :: n >= pushes ==> PushKey(n) !in analyses)
    }

    constructor (writeFailure: Option<Thrown>)
      ensures Valid()
      ensures analyses == map[] && order == [] && users == map[] && pushes == 0
      ensures this.writeFailure == writeFailure
    {
      analyses, order, users, pushes := map[], [], map[], 0;
      this.writeFailure := writeFailure;
    }

    /** `saveUser`: writes the user record only if none exists for `uid`. */
    method SaveUser(uid: string, email: string, now: int) returns (r: Result<(), Thrown>)
      requires Valid()
      modifies this
      ensures Valid()
      ensures uid in old(users) ==> r == Success(()) && users == old(users)
      ensures uid !in old(users) && writeFailure.None? ==>
        r == Success(()) && users == UsersAfterSave(old(users), uid, email, now)
      ensures uid !in old(users) && writeFailure.Some? ==>
        r == Failure(writeFailure.value) && users == old(users)
      ensures analyses == old(analyses) && order == old(order) && pushes == old(pushes)
    {
      if uid !in users {
        if writeFailure.Some? {
          return Failure(writeFailure.value);
        }
        users := users[uid := User(uid, email, now)];
      }
      r := Success(());
    }

    /** `saveAnalysis`: pushes a fresh key and writes the full record under it. */
    method SaveAnalysis(input: AnalysisInput, result: GeminiAnalysisResult, now: int)
      returns (r: Result<AnalysisDocument, Thrown>)
      requires Valid()
      modifies this
      ensures Valid()
      ensures pushes == old(pushes) + 1 && users == old(users)
      ensures writeFailure.Some? ==>
        r == Failure(writeFailure.value) && analyses == old(analyses) && order == old(order)
      ensures writeFailure.None? ==>
        && PushKey(old(pushes)) !in old(analyses)
        && r == Success(NewDocument(PushKey(old(pushes)), input, result, now))
        && analyses == old(analyses)[PushKey(old(pushes)) := r.value]
        && order == old(order) + [PushKey(old(pushes))]
      ensures forall k :: k in old(analyses) ==> k in analyses && analyses[k] == old(analyses)[k]
      ensures r.Success? ==> |analyses| == |old(analyses)| + 1 && GetAnalysisById(r.value.id) == Some(r.value)
    {
      var key := PushKey(pushes);
      pushes := pushes + 1;
      forall n: nat | n >= pushes ensures PushKey(n) != key && PushKey(n) !in analyses {
        if PushKey(n) == key { PushKeyInjective(n, pushes - 1); }
      }
      var analysis := NewDocument(key, input, result, now);
      if writeFailure.Some? {
        return Failure(writeFailure.value);
      }
      analyses := analyses[key := analysis];
      order := order + [key];
      r := Success(analysis);
    }

    /** `getAnalysisById`: the stored record, or `null` for an unknown id. */
    function GetAnalysisById(id: string): (r: Option<AnalysisDocument>)
      reads this
      requires Valid()
      ensures r.None? <==> id !in analyses
      ensures r.Some? ==> r.value == analyses[id] && r.value.id == id
    {
      if id in analyses then Some(analyses[id]) else None
    }

    /** The query `orderByChild('userId').equalTo(userId)` walked with
        `forEach`: the owner's records, in push order. */
    method QueryByOwner(userId: string) returns (found: seq<AnalysisDocument>)
      requires Valid()
      ensures found == Owned(order, analyses, userId)
    {
      found := [];
      var i := 0;
      while i < |order|
        invariant 0 <= i <= |order|
        invariant found == Owned(order[..i], analyses, userId)
      {
        var child := analyses[order[i]];
        if child.userId == userId {
          found := found + [child];
        }
        assert order[..i + 1][..i] == order[..i];
        i := i + 1;
      }
      assert order[..|order|] == order;
    }

    /** `getUserAnalyses`: the owner's records, most recent first. */
    method GetUserAnalyses(userId: string) returns (list: seq<AnalysisDocument>)
      requires Valid()
      ensures list == SortNewestFirst(Owned(order, analyses, userId))
      ensures forall d :: d in list <==> d in analyses.Values && d.userId == userId
      ensures NewestFirst(list)
      ensures (forall k :: k in analyses ==> analyses[k].userId != userId) ==> list == []
    {
      var found := QueryByOwner(userId);
      OwnedExactly(order, analyses, userId);
      if found == [] {
        // An empty query result is a snapshot that does not exist.
        return [];
      }
      assert found[0] in analyses.Values;
      ghost var k :| k in analyses && analyses[k] == found[0];
      list := SortNewestFirst(found);
      SortKeepsMembers(found);
    }
  }
}
