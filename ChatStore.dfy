/**
 * The admin chat-room store (stores/chatStore.js): the waiting rooms the
 * backend reports, the rooms the operator has disabled (mirrored to
 * localStorage), and the rooms still shown.
 *
 * The backend call is a parameter (its answer or its failure); a timer
 * handle is a number.
 */
module ChatStore {
  import opened Common

  datatype Room = Room(sessionId: string)

  /** An entry of the backend's answer: a bare session id or a room object. */
  datatype Session = BareId(id: string) | RoomObject(room: Room)

  function Normalise(s: Session): (r: Room)
    ensures s.BareId? ==> r == Room(s.id)
    ensures s.RoomObject? ==> r == s.room
  {
    match s
    case BareId(id) => Room(id)
    case RoomObject(room) => room
  }

  /** `filteredRooms`: the waiting rooms whose session is not disabled, in order. */
  function Filtered(waiting: seq<Room>, disabled: seq<string>): (r: seq<Room>)
    ensures |r| <= |waiting|
    ensures forall room :: room in r <==> room in waiting && room.sessionId !in disabled
  {
    if waiting == [] then []
    else
      var rest := Filtered(waiting[1..], disabled);
      assert waiting == [waiting[0]] + waiting[1..];
      if waiting[0].sessionId in disabled then rest else [waiting[0]] + rest
  }

  /** The disabled list after `disableRoom`: the id is appended unless it is already there. */
  function Disabled(disabled: seq<string>, sessionId: string): (r: seq<string>)
    ensures sessionId in r
    ensures forall x :: x in r <==> x in disabled || x == sessionId
  {
    if sessionId in disabled then disabled else disabled + [sessionId]
  }

  predicate NoDuplicates(xs: seq<string>)
  {
    forall i, j :: 0 <= i < j < |xs| ==> xs[i] != xs[j]
  }

  /** Disabling is idempotent and never duplicates an id. */
  lemma DisableIdempotent(disabled: seq<string>, sessionId: string)
    ensures Disabled(Disabled(disabled, sessionId), sessionId) == Disabled(disabled, sessionId)
    ensures NoDuplicates(disabled) ==> NoDuplicates(Disabled(disabled, sessionId))
  {
  }

  /** Disabling a room hides exactly the waiting rooms of that session. */
  lemma DisableHidesRoom(waiting: seq<Room>, disabled: seq<string>, sessionId: string)
    ensures forall room :: room in Filtered(waiting, Disabled(disabled, sessionId)) <==>
      room in Filtered(waiting, disabled) && room.sessionId != sessionId
  {
  }

  class ChatRooms {
    var waitingRooms: seq<Room>
    var disabledRooms: seq<string>
    /** The "disabledRooms" entry of localStorage. */
    var storedDisabledRooms: seq<string>
    var isLoading: bool
    var pollingInterval: Option<int>

    constructor(stored: Option<seq<string>>)
      ensures waitingRooms == [] && !isLoading && pollingInterval.None?
      ensures disabledRooms == storedDisabledRooms == (if stored.Some? then stored.value else [])
    {
      waitingRooms := [];
      disabledRooms := if stored.Some? then stored.value else [];
      storedDisabledRooms := disabledRooms;
      isLoading := false;
      pollingInterval := None;
    }

    function FilteredRooms(): seq<Room>
      reads this
    {
      Filtered(waitingRooms, disabledRooms)
    }

    /** `waitingRoomCount`: the number of rooms shown. */
    function WaitingRoomCount(): (n: nat)
      reads this
      ensures n == |Filtered(waitingRooms, disabledRooms)|
      ensures n <= |waitingRooms|
    {
      |FilteredRooms()|
    }

    /** fetchWaitingRooms: the normalised answer, or no rooms when the call fails; loading ends either way. */
    method FetchWaitingRooms(answer: Result<seq<Session>, string>)
      modifies this`waitingRooms, this`isLoading
      ensures answer.Err? ==> waitingRooms == []
      ensures answer.Ok? ==> |waitingRooms| == |answer.value|
      ensures answer.Ok? ==> forall i :: 0 <= i < |answer.value| ==> waitingRooms[i] == Normalise(answer.value[i])
      ensures !isLoading
    {
      isLoading := true;
      if answer.Err? {
        waitingRooms := [];
      } else {
        var rooms: seq<Room> := [];
        var i := 0;
        while i < |answer.value|
          invariant 0 <= i <= |answer.value|
          invariant |rooms| == i && forall k :: 0 <= k < i ==> rooms[k] == Normalise(answer.value[k])
        {
          rooms := rooms + [Normalise(answer.value[i])];
          i := i + 1;
        }
        waitingRooms := rooms;
      }
      isLoading := false;
    }

    /** startPolling: an immediate fetch, then a fresh interval in place of any running one. */
    method StartPolling(answer: Result<seq<Session>, string>, handle: int)
      modifies this`waitingRooms, this`isLoading, this`pollingInterval
      ensures pollingInterval == Some(handle) && !isLoading
    {
      FetchWaitingRooms(answer);
      pollingInterval := Some(handle);
    }

    method StopPolling()
      modifies this`pollingInterval
      ensures pollingInterval.None?
    {
      pollingInterval := None;
    }

    /** disableRoom: the `includes` test, then the push and the write-through. */
    method DisableRoom(sessionId: string)
      modifies this`disabledRooms, this`storedDisabledRooms
      ensures disabledRooms == Disabled(old(disabledRooms), sessionId)
      ensures sessionId !in old(disabledRooms) ==> storedDisabledRooms == disabledRooms
      ensures sessionId in old(disabledRooms) ==> storedDisabledRooms == old(storedDisabledRooms)
    {
      var i := 0;
      while i < |disabledRooms| && disabledRooms[i] != sessionId
        invariant 0 <= i <= |disabledRooms|
        invariant forall k :: 0 <= k < i ==> disabledRooms[k] != sessionId
      {
        i := i + 1;
      }
      if i == |disabledRooms| {
        disabledRooms := disabledRooms + [sessionId];
        storedDisabledRooms := disabledRooms;
      }
    }

    method ResetDisabledRooms()
      modifies this`disabledRooms, this`storedDisabledRooms
      ensures disabledRooms == [] && storedDisabledRooms == []
      ensures Filtered(waitingRooms, disabledRooms) == waitingRooms
    {
      disabledRooms := [];
      storedDisabledRooms := [];
      NothingDisabledShowsAll(waitingRooms);
    }
  }

  /** With nothing disabled every waiting room is shown. */
  lemma {:induction false} NothingDisabledShowsAll(waiting: seq<Room>)
    ensures Filtered(waiting, []) == waiting
  {
    if waiting != [] {
      NothingDisabledShowsAll(waiting[1..]);
    }
  }
}
