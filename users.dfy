/**
 * The user records the leaderboard endpoint returns, the normalisation of the
 * response body shared by the leaderboard page and authApi.getAllUsers, and
 * the "highest score first" ordering that both obtain from
 * Array.prototype.sort with the comparator (a, b) => b.score - a.score.
 */
module Users {
  import opened Wrappers
  import opened Js
  import opened Http

  /** A leaderboard entry (the User interface of the leaderboard page). */
  datatype User = User(
    userId: string,
    username: string,
    walletId: string,
    friendList: seq<string>,
    avatarId: Option<string>,
    rank: int,
    score: int,
    favoriteChain: seq<string>)

  /**
   * A parsed JSON body, as far as the normalisation inspects it. For an
   * object, a field is None when it is absent or not an array.
   */
  datatype Body =
    | JsonArray(items: seq<User>)
    | JsonObject(users: Option<seq<User>>, data: Option<seq<User>>)
    | JsonScalar   // null, a number, a string or a boolean

  const InvalidFormat := "Invalid data format: expected an array of users"

  /**
   * The array of users in a body: the body itself if it is an array, else its
   * `users` field, else its `data` field; anything else is an error.
   */
  function ExtractUsers(body: Body): (r: Result<seq<User>, string>)
    ensures body.JsonArray? ==> r == Success(body.items)
    ensures body.JsonObject? && body.users.Some? ==> r == Success(body.users.value)
    ensures body.JsonObject? && body.users.None? && body.data.Some? ==> r == Success(body.data.value)
    ensures r.Failure? <==> body.JsonScalar? || (body.JsonObject? && body.users.None? && body.data.None?)
    ensures r.Failure? ==> r.error == InvalidFormat
  {
    match body
    case JsonArray(items) => Success(items)
    case JsonObject(Some(users), _) => Success(users)
    case JsonObject(None, Some(data)) => Success(data)
    case _ => Failure(InvalidFormat)
  }

  const FetchFailed := "Failed to fetch users"

  /**
   * What loading the user list yields, for the leaderboard page and for
   * authApi.getAllUsers alike: the message of whatever was thrown, or the
   * normalised array sorted by score. A non-ok status fails before the body
   * is read.
   */
  function UsersFromReply(reply: Reply<Body>): (r: Result<seq<User>, string>)
    ensures reply.Rejected? ==> r == Failure(reply.message)
    ensures reply.Response? && !reply.Ok() ==> r == Failure(FetchFailed)
    ensures reply.Ok() && reply.body.Failure? ==> r == Failure(reply.body.error)
    ensures reply.Ok() && reply.body.Success? && ExtractUsers(reply.body.value).Failure? ==> r == Failure(InvalidFormat)
    ensures r.Success? <==> reply.Ok() && reply.body.Success? && ExtractUsers(reply.body.value).Success?
    ensures r.Success? ==> var extracted := ExtractUsers(reply.body.value).value;
      multiset(r.value) == multiset(extracted) && SortedByScore(r.value)
  {
    if reply.Rejected? then Failure(reply.message)
    else if !reply.Ok() then Failure(FetchFailed)
    else if reply.body.Failure? then Failure(reply.body.error)
    else match ExtractUsers(reply.body.value)
      case Failure(e) => Failure(e)
      case Success(users) =>
        SortSortsByScore(users);
        Success(Sort(users))
  }

  /**
   * A wallet address shortened for display, `a.slice(0, 6) + "..." +
   * a.slice(-4)`: the first six characters, three dots, the last four.
   */
  function ShortAddress(a: string): (r: string)
    ensures |a| >= 10 ==> |r| == 13 && r == a[..6] + "..." + a[|a| - 4..]
    ensures |r| == |Take(a, 6)| + 3 + |TakeLast(a, 4)|
    ensures r[..|Take(a, 6)|] == Take(a, 6) && r[|Take(a, 6)|..|Take(a, 6)| + 3] == "..."
    ensures r[|Take(a, 6)| + 3..] == TakeLast(a, 4)
  {
    Take(a, 6) + "..." + TakeLast(a, 4)
  }

  /** Highest score first. */
  ghost predicate SortedByScore(s: seq<User>) {
    forall i, j :: 0 <= i < j < |s| ==> s[i].score >= s[j].score
  }

  /**
   * Inserts x after the last element whose score is at least x's, shifting
   * the lower-scored tail (one step of a stable insertion sort).
   */
  function Insert(s: seq<User>, x: User): (r: seq<User>)
    ensures |r| == |s| + 1
  {
    if s == [] || s[|s| - 1].score >= x.score then
      s + [x]
    else
      Insert(s[..|s| - 1], x) + [s[|s| - 1]]
  }

  lemma {:induction false} InsertPermutes(s: seq<User>, x: User)
    ensures multiset(Insert(s, x)) == multiset(s) + multiset{x}
  {
    if !(s == [] || s[|s| - 1].score >= x.score) {
      assert s == s[..|s| - 1] + [s[|s| - 1]];
      InsertPermutes(s[..|s| - 1], x);
    }
  }

  lemma {:induction false} InsertSorted(s: seq<User>, x: User)
    requires SortedByScore(s)
    ensures SortedByScore(Insert(s, x))
  {
    if !(s == [] || s[|s| - 1].score >= x.score) {
      var init, last := s[..|s| - 1], s[|s| - 1];
      InsertSorted(init, x);
      InsertPermutes(init, x);
      var r := Insert(init, x);
      forall k | 0 <= k < |r| ensures r[k].score >= last.score {
        assert r[k] in multiset(init) + multiset{x};
      }
    }
  }

  /** Stable sort by score, highest first. */
  function Sort(s: seq<User>): (r: seq<User>)
    ensures |r| == |s|
  {
    if s == [] then [] else Insert(Sort(s[..|s| - 1]), s[|s| - 1])
  }

  /** Sort returns a permutation of its input ordered by score, highest first. */
  lemma {:induction false} SortSortsByScore(s: seq<User>)
    ensures multiset(Sort(s)) == multiset(s)
    ensures SortedByScore(Sort(s))
  {
    if s != [] {
      var init, last := s[..|s| - 1], s[|s| - 1];
      assert s == init + [last];
      SortSortsByScore(init);
      InsertPermutes(Sort(init), last);
      InsertSorted(Sort(init), last);
    }
  }

  /** The users of s with score v, in their order in s. */
  function WithScore(s: seq<User>, v: int): (r: seq<User>)
    ensures forall k :: 0 <= k < |r| ==> r[k].score == v
  {
    if s == [] then [] else (if s[0].score == v then [s[0]] else []) + WithScore(s[1..], v)
  }

  lemma {:induction false} WithScoreAppend(a: seq<User>, b: seq<User>, v: int)
    ensures WithScore(a + b, v) == WithScore(a, v) + WithScore(b, v)
  {
    if a == [] {
      assert a + b == b;
    } else {
      assert (a + b)[1..] == a[1..] + b;
      WithScoreAppend(a[1..], b, v);
    }
  }

  lemma WithScoreSingle(x: User, v: int)
    ensures WithScore([x], v) == if x.score == v then [x] else []
  {
    assert [x][1..] == [];
  }

  /** The inductive step of InsertKeepsTies: x moves past a lower-scored last element. */
  lemma InsertPastKeepsTies(init: seq<User>, last: User, x: User, v: int)
    requires last.score < x.score
    requires WithScore(Insert(init, x), v) == WithScore(init, v) + (if x.score == v then [x] else [])
    ensures WithScore(Insert(init + [last], x), v) == WithScore(init + [last], v) + (if x.score == v then [x] else [])
  {
    var s := init + [last];
    var tieX := if x.score == v then [x] else [];
    var tieLast := if last.score == v then [last] else [];
    assert s[..|s| - 1] == init && s[|s| - 1] == last;
    assert Insert(s, x) == Insert(init, x) + [last];
    WithScoreAppend(Insert(init, x), [last], v);
    WithScoreAppend(init, [last], v);
    WithScoreSingle(last, v);
    var before := WithScore(init, v);
    assert WithScore(Insert(s, x), v) == before + tieX + tieLast;
    assert WithScore(s, v) == before + tieLast;
    if x.score == v {
      assert tieLast == [] && before + tieX + [] == before + tieX;
      assert before + [] == before;
    } else {
      assert tieX == [] && before + [] + tieLast == before + tieLast;
    }
  }

  /** An insertion step puts x after every element with an equal score. */
  lemma {:induction false} InsertKeepsTies(s: seq<User>, x: User, v: int)
    ensures WithScore(Insert(s, x), v) == WithScore(s, v) + (if x.score == v then [x] else [])
  {
    if s == [] || s[|s| - 1].score >= x.score {
      assert Insert(s, x) == s + [x];
      WithScoreAppend(s, [x], v);
      WithScoreSingle(x, v);
    } else {
      var init, last := s[..|s| - 1], s[|s| - 1];
      InsertKeepsTies(init, x, v);
      InsertPastKeepsTies(init, last, x, v);
      assert s == init + [last];
    }
  }

  /** Sort is stable: users with equal scores keep their relative order. */
  lemma {:induction false} SortIsStable(s: seq<User>, v: int)
    ensures WithScore(Sort(s), v) == WithScore(s, v)
  {
    if s != [] {
      var init, last := s[..|s| - 1], s[|s| - 1];
      assert s == init + [last];
      SortIsStable(init, v);
      InsertKeepsTies(Sort(init), last, v);
      WithScoreAppend(init, [last], v);
    }
  }

  lemma WithScoreHead(t: seq<User>)
    requires t != []
    ensures WithScore(t, t[0].score) == [t[0]] + WithScore(t[1..], t[0].score)
  {
  }

  lemma {:induction false} WithScoreNonEmpty(t: seq<User>, v: int)
    requires WithScore(t, v) != []
    ensures exists i :: 0 <= i < |t| && t[i].score == v
  {
    if t[0].score != v {
      WithScoreNonEmpty(t[1..], v);
      var i :| 0 <= i < |t[1..]| && t[1..][i].score == v;
      assert t[i + 1].score == v;
    }
  }

  /** Two score-sorted, non-empty lists with the same score groups start with the same user. */
  lemma HeadsAgree(t: seq<User>, u: seq<User>)
    requires t != [] && u != []
    requires SortedByScore(t) && SortedByScore(u)
    requires forall v :: WithScore(t, v) == WithScore(u, v)
    ensures t[0] == u[0]
  {
    var m, n := t[0].score, u[0].score;
    assert WithScore(u, m) == WithScore(t, m);
    assert WithScore(t, n) == WithScore(u, n);
    WithScoreHead(t);
    WithScoreHead(u);
    WithScoreNonEmpty(u, m);
    WithScoreNonEmpty(t, n);
    assert m == n;
    assert WithScore(t, m)[0] == t[0] && WithScore(u, m)[0] == u[0];
  }

  /** Lists with the same head and the same score groups have tails with the same score groups. */
  lemma TailsAgree(t: seq<User>, u: seq<User>)
    requires t != [] && u != [] && t[0] == u[0]
    requires forall v :: WithScore(t, v) == WithScore(u, v)
    ensures forall v :: WithScore(t[1..], v) == WithScore(u[1..], v)
  {
    forall v ensures WithScore(t[1..], v) == WithScore(u[1..], v) {
      var head := if t[0].score == v then [t[0]] else [];
      assert WithScore(t, v) == head + WithScore(t[1..], v);
      assert WithScore(u, v) == head + WithScore(u[1..], v);
      assert (head + WithScore(t[1..], v))[|head|..] == WithScore(t[1..], v);
      assert (head + WithScore(u[1..], v))[|head|..] == WithScore(u[1..], v);
    }
  }

  /**
   * Two score-sorted lists that agree on the order of every group of equal
   * scores are the same list.
   */
  lemma {:induction false} SortedTiesDetermine(t: seq<User>, u: seq<User>)
    requires SortedByScore(t) && SortedByScore(u)
    requires forall v :: WithScore(t, v) == WithScore(u, v)
    ensures t == u
    decreases |t|
  {
    if t == [] && u != [] {
      WithScoreHead(u);
      assert false;
    } else if t != [] && u == [] {
      WithScoreHead(t);
      assert false;
    } else if t != [] && u != [] {
      HeadsAgree(t, u);
      TailsAgree(t, u);
      SortedTiesDetermine(t[1..], u[1..]);
      assert t == [t[0]] + t[1..] && u == [u[0]] + u[1..];
    }
  }

  /**
   * Any stable descending sort of s yields Sort(s), whatever algorithm the
   * JavaScript engine uses (ECMAScript requires Array.prototype.sort to be
   * stable).
   */
  lemma StableSortIsUnique(s: seq<User>, t: seq<User>)
    requires SortedByScore(t)
    requires forall v :: WithScore(t, v) == WithScore(s, v)
    ensures t == Sort(s)
  {
    forall v ensures WithScore(t, v) == WithScore(Sort(s), v) {
      SortIsStable(s, v);
    }
    SortSortsByScore(s);
    SortedTiesDetermine(t, Sort(s));
  }

  /**
   * Insert puts x right after the last element scoring at least as much:
   * when everything from j on scores less than x and the element before j
   * does not, x lands at index j.
   */
  lemma {:induction false} InsertSplit(p: seq<User>, j: nat, x: User)
    requires j <= |p|
    requires forall k :: j <= k < |p| ==> p[k].score < x.score
    requires j == 0 || p[j - 1].score >= x.score
    ensures Insert(p, x) == p[..j] + [x] + p[j..]
    decreases |p|
  {
    if |p| == j {
      assert p[..j] == p && p[j..] == [];
    } else {
      var init, last := p[..|p| - 1], p[|p| - 1];
      assert p == init + [last];
      assert Insert(p, x) == Insert(init, x) + [last];
      assert forall k :: j <= k < |init| ==> init[k] == p[k];
      assert j == 0 || init[j - 1] == p[j - 1];
      InsertSplit(init, j, x);
      assert init[..j] == p[..j];
      assert init[j..] + [last] == p[j..];
    }
  }

  /** A list that agrees with p before j, holds x at j and p shifted by one after j is p with x put at j. */
  lemma PutAt(p: seq<User>, j: nat, x: User, c: seq<User>)
    requires j <= |p| && |c| == |p| + 1
    requires forall k :: 0 <= k < j ==> c[k] == p[k]
    requires c[j] == x
    requires forall k :: j < k <= |p| ==> c[k] == p[k - 1]
    ensures c == p[..j] + [x] + p[j..]
  {
    var q := p[..j] + [x] + p[j..];
    forall k | 0 <= k < |c| ensures c[k] == q[k] {
      if k < j {
        assert q[k] == p[k];
      } else if k > j {
        assert q[k] == p[k - 1];
      }
    }
  }

  /**
   * The inner loop of an insertion pass: shifts the elements of a[..i] that
   * score less than x one place to the right and returns the slot left free.
   */
  method OpenSlot(a: array<User>, i: nat, x: User) returns (j: nat)
    requires i < a.Length
    modifies a
    ensures j <= i
    ensures forall k :: 0 <= k < j ==> a[k] == old(a[k])
    ensures forall k :: j < k <= i ==> a[k] == old(a[k - 1])
    ensures forall k :: i < k < a.Length ==> a[k] == old(a[k])
    ensures forall k :: j <= k < i ==> old(a[k]).score < x.score
    ensures j == 0 || old(a[j - 1]).score >= x.score
  {
    j := i;
    while j > 0 && a[j - 1].score < x.score
      invariant 0 <= j <= i
      invariant forall k :: 0 <= k < j ==> a[k] == old(a[k])
      invariant forall k :: j < k <= i ==> a[k] == old(a[k - 1])
      invariant forall k :: i < k < a.Length ==> a[k] == old(a[k])
      invariant forall k :: j <= k < i ==> old(a[k]).score < x.score
    {
      a[j] := a[j - 1];
      j := j - 1;
    }
  }

  /** One pass of the insertion sort: a[i] moves into the sorted prefix a[..i]. */
  method InsertAt(a: array<User>, i: nat)
    requires i < a.Length
    modifies a
    ensures a[..] == Insert(old(a[..])[..i], old(a[i])) + old(a[..])[i + 1..]
  {
    ghost var before := a[..];
    ghost var p := a[..i];
    var x := a[i];
    var j := OpenSlot(a, i, x);
    a[j] := x;
    InsertSplit(p, j, x);
    PutAt(p, j, x, a[..i + 1]);
    assert a[i + 1..] == before[i + 1..];
    assert a[..] == a[..i + 1] + a[i + 1..];
  }

  /** One step of the sort: inserting the next input element into the sorted prefix. */
  lemma SortPrefixStep(input: seq<User>, i: nat, c: seq<User>)
    requires i < |input| && c == Sort(input[..i]) + input[i..]
    ensures Insert(c[..i], c[i]) + c[i + 1..] == Sort(input[..i + 1]) + input[i + 1..]
  {
    assert c[..i] == Sort(input[..i]);
    assert c[i] == input[i];
    assert c[i + 1..] == input[i + 1..];
    assert input[..i + 1][..i] == input[..i];
    assert Sort(input[..i + 1]) == Insert(Sort(input[..i]), input[i]);
  }

  /** usersArray.sort((a, b) => b.score - a.score), in place, as an insertion sort. */
  method SortInPlace(a: array<User>)
    modifies a
    ensures a[..] == Sort(old(a[..]))
  {
    ghost var input := a[..];
    assert input[..0] == [] && input[0..] == input;
    var i := 0;
    while i < a.Length
      invariant 0 <= i <= a.Length
      invariant a[..] == Sort(input[..i]) + input[i..]
    {
      SortPrefixStep(input, i, a[..]);
      InsertAt(a, i);
      i := i + 1;
    }
    assert input[..i] == input && input[i..] == [];
  }
}
