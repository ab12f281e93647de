/**
 * The leaderboard page (src/app/leaderboard/page.tsx): loading the sorted
 * user list, the podium and the numbered list below it, and the connected
 * user's rank and abbreviated name.
 */
module Leaderboard {
  import opened Wrappers
  import opened Js
  import opened Http
  import opened Users

  /** users.slice(0, 3): the podium. */
  function TopThree(users: seq<User>): (r: seq<User>)
    ensures |r| == if |users| < 3 then |users| else 3
  {
    Take(users, 3)
  }

  /** users.slice(3): the list under the podium. */
  function RemainingUsers(users: seq<User>): seq<User> {
    Drop(users, 3)
  }

  /** The podium and the list together are the whole sorted list, in order. */
  lemma PodiumSplit(users: seq<User>)
    ensures TopThree(users) + RemainingUsers(users) == users
    ensures |TopThree(users)| + |RemainingUsers(users)| == |users|
  {
  }

  /** The label `#${index + 4}` of the index-th user under the podium. */
  function PositionLabel(index: nat): string {
    "#" + NatToString(index + 4)
  }

  /**
   * The index-th remaining user is the user at 1-based position index + 4 of
   * the full list, and its label reads back as that position.
   */
  lemma PositionLabelIsRank(users: seq<User>, index: nat)
    requires index < |RemainingUsers(users)|
    ensures RemainingUsers(users)[index] == users[index + 3]
    ensures PositionLabel(index)[0] == '#'
    ensures DigitsValue(PositionLabel(index)[1..]) == index + 4
  {
    assert PositionLabel(index)[1..] == NatToString(index + 4);
    NatToStringRoundTrip(index + 4);
  }

  /** Different places under the podium carry different labels. */
  lemma PositionLabelsDistinct(i: nat, j: nat)
    requires i != j
    ensures PositionLabel(i) != PositionLabel(j)
  {
    if PositionLabel(i) == PositionLabel(j) {
      assert PositionLabel(i)[1..] == NatToString(i + 4);
      assert PositionLabel(j)[1..] == NatToString(j + 4);
      NatToStringInjective(i + 4, j + 4);
    }
  }

  /** users.findIndex(user => user.walletId === account): -1 when no user matches. */
  function FindIndex(users: seq<User>, account: Option<string>): (r: int)
    ensures -1 <= r < |users|
    ensures r == -1 <==> forall k :: 0 <= k < |users| ==> !(account.Some? && users[k].walletId == account.value)
    ensures r >= 0 ==> account.Some? && users[r].walletId == account.value
    ensures r >= 0 ==> forall k :: 0 <= k < r ==> users[k].walletId != account.value
  {
    if account.None? || users == [] then -1
    else if users[0].walletId == account.value then 0
    else
      var r := FindIndex(users[1..], account);
      assert forall k :: 1 <= k < |users| ==> users[k] == users[1..][k - 1];
      if r == -1 then -1 else r + 1
  }

  /**
   * The connected user's rank, `findIndex(...) + 1 || users.length + 1`:
   * the 1-based position of the first user with the account's wallet, or
   * one past the end when there is none.
   */
  function Rank(users: seq<User>, account: Option<string>): (rank: nat)
    ensures 1 <= rank <= |users| + 1
    ensures rank <= |users| <==> exists k :: 0 <= k < |users| && account.Some? && users[k].walletId == account.value
    ensures rank <= |users| ==> users[rank - 1].walletId == account.value
    ensures rank <= |users| ==> forall k :: 0 <= k < rank - 1 ==> users[k].walletId != account.value
  {
    var position := FindIndex(users, account) + 1;
    if position != 0 then position else |users| + 1
  }

  /** The name in the "your stats" bar: the abbreviated account, or "You" without one. */
  function DisplayName(account: Option<string>): (name: string)
    ensures !(account.Some? && account.value != "") ==> name == "You"
    ensures account.Some? && account.value != "" ==> name == ShortAddress(account.value)
  {
    if account.Some? && account.value != "" then ShortAddress(account.value) else "You"
  }

  /** The page's state. */
  class LeaderboardPage {
    var users: seq<User>
    var loading: bool
    var error: Option<string>

    constructor ()
      ensures users == [] && loading && error == None
    {
      users := [];
      loading := true;
      error := None;
    }

    /**
     * fetchUsers, given the reply to GET /api/auth/users: on success the
     * stored list is the normalised array sorted by score; any failure is
     * recorded as the error message and leaves the list alone. Loading
     * ends either way.
     */
    method FetchUsers(reply: Reply<Body>)
      modifies this
      ensures !loading
      ensures UsersFromReply(reply).Success? ==> users == UsersFromReply(reply).value && error == old(error)
      ensures UsersFromReply(reply).Failure? ==> users == old(users) && error == Some(UsersFromReply(reply).error)
    {
      loading := true;
      if reply.Rejected? {
        error := Some(reply.message);
      } else if !reply.Ok() {
        error := Some(FetchFailed);
      } else if reply.body.Failure? {
        error := Some(reply.body.error);
      } else {
        var data := reply.body.value;
        var usersArray: seq<User> := [];
        var valid := true;
        if data.JsonArray? {
          usersArray := data.items;
        } else if data.JsonObject? && data.users.Some? {
          usersArray := data.users.value;
        } else if data.JsonObject? && data.data.Some? {
          usersArray := data.data.value;
        } else {
          valid := false;
        }
        if valid {
          var a := new User[|usersArray|](i requires 0 <= i < |usersArray| => usersArray[i]);
          assert a[..] == usersArray;
          SortInPlace(a);
          users := a[..];
        } else {
          error := Some(InvalidFormat);
        }
      }
      loading := false;
    }
  }
}
