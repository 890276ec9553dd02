/** admin.controller.js: the admin's user listing with search. */
module AdminController {
  import opened Common
  import opened Models
  import opened Ordering
  import opened Search

  predicate Listed(q: Option<string>, u: UserDoc) {
    !Truthy(q) || UserMatches(q.value, u)
  }

  /** The projection `select('-hashedPassword')` applies to every document. */
  function Views(s: seq<UserDoc>): (r: seq<UserView>)
    ensures |r| == |s| && forall i :: 0 <= i < |s| ==> r[i] == ViewOf(s[i])
  {
    if s == [] then [] else [ViewOf(s[0])] + Views(s[1..])
  }

  lemma ViewsMembers(s: seq<UserDoc>, v: UserView)
    ensures v in Views(s) <==> exists u :: u in s && v == ViewOf(u)
  {
    if v in Views(s) {
      var i :| 0 <= i < |s| && Views(s)[i] == v;
      assert s[i] in s;
    }
    if exists u :: u in s && v == ViewOf(u) {
      var u :| u in s && v == ViewOf(u);
      var i :| 0 <= i < |s| && s[i] == u;
      assert Views(s)[i] == v;
    }
  }

  /** A filter that keeps everything keeps as many documents. */
  lemma KeepAllCount<T(!new)>(s: seq<T>, p: T -> bool, key: T -> nat)
    requires forall x :: p(x)
    ensures |SortNewestFirst(Where(s, p), key)| == |s|
  {
    var found := SortNewestFirst(Where(s, p), key);
    assert multiset(found) == multiset(s) by {
      assert forall x :: multiset(Where(s, p))[x] == multiset(s)[x];
    }
    assert |multiset(found)| == |found| && |multiset(s)| == |s|;
  }

  /** Newest first stays newest first under the projection. */
  lemma ViewsNewestFirst(s: seq<UserDoc>)
    requires NewestFirst(s, UserCreatedAt)
    ensures NewestFirst(Views(s), ViewCreatedAt)
  {
    var r := Views(s);
    forall i, j | 0 <= i < j < |r| ensures ViewCreatedAt(r[i]) >= ViewCreatedAt(r[j]) {
      assert r[i] == ViewOf(s[i]) && r[j] == ViewOf(s[j]);
    }
  }

  /** `User.find(filter).sort({ createdAt: -1 })` before the projection. */
  function Found(users: seq<UserDoc>, q: Option<string>): (found: seq<UserDoc>)
    ensures NewestFirst(found, UserCreatedAt)
    ensures forall u :: u in found <==> u in users && Listed(q, u)
    ensures forall u :: multiset(found)[u] == if Listed(q, u) then multiset(users)[u] else 0
    ensures !Truthy(q) ==> |found| == |users|
  {
    var p := (u: UserDoc) => Listed(q, u);
    var found := SortNewestFirst(Where(users, p), UserCreatedAt);
    assert forall u :: u in found <==> u in users && Listed(q, u) by {
      forall u ensures u in found <==> u in users && Listed(q, u) {
        SortedQueryMembers(users, p, UserCreatedAt, u);
      }
    }
    assert !Truthy(q) ==> |found| == |users| by {
      if !Truthy(q) {
        KeepAllCount(users, p, UserCreatedAt);
      }
    }
    found
  }

  /** A view is listed exactly when it is the view of a matching user. */
  lemma FoundViews(users: seq<UserDoc>, q: Option<string>, v: UserView)
    ensures v in Views(Found(users, q)) <==> exists u :: u in users && Listed(q, u) && v == ViewOf(u)
  {
    var found := Found(users, q);
    ViewsMembers(found, v);
    assert (exists u :: u in found && v == ViewOf(u)) <==> exists u :: u in users && Listed(q, u) && v == ViewOf(u);
  }

  /** listUsers: the matching users, newest first, without their hashes.
      Each matching user is listed once per stored copy, so with no query
      every user is listed. */
  function ListUsers(users: seq<UserDoc>, q: Option<string>): (reply: Reply<seq<UserView>>)
    ensures reply.Ok? && reply.status == 200 && reply.value == Views(Found(users, q))
    ensures NewestFirst(reply.value, ViewCreatedAt)
    ensures forall v :: v in reply.value <==> exists u :: u in users && Listed(q, u) && v == ViewOf(u)
    ensures !Truthy(q) ==> |reply.value| == |users|
  {
    var found := Found(users, q);
    ViewsNewestFirst(found);
    assert forall v :: v in Views(found) <==> exists u :: u in users && Listed(q, u) && v == ViewOf(u) by {
      forall v ensures v in Views(found) <==> exists u :: u in users && Listed(q, u) && v == ViewOf(u) {
        FoundViews(users, q, v);
      }
    }
    Ok(200, Views(found))
  }
}
