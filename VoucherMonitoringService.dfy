/**
 * The scheduled voucher monitor of the backend (VoucherMonitoringService):
 * the map of last known campaign states, the filters that pick the
 * vouchers that just expired or just started, the tracking update, the
 * monitoring cycle and the event-driven state change.
 *
 * TrangThaiCampaign.java and PhieuGiamGia.java are not part of this model:
 * the three campaign states the service names are constructors and every
 * other state is one more; a voucher carries the state its dates give now
 * (`PhieuGiamGia.fromDates`), computed by the caller. The repository
 * queries are parameters, and a WebSocket notification is a record
 * appended to `sent`.
 */
module VoucherMonitoringService {
  import opened Common

  datatype TrangThaiCampaign = CHUA_DIEN_RA | DA_DIEN_RA | KET_THUC | OtherState

  /** A voucher as the service reads it: id, code and date-derived state. */
  datatype Voucher = Voucher(id: int, code: string, actualStatus: TrangThaiCampaign)

  /** The notifications the service sends. */
  datatype Notice = ExpiredNotice(voucherId: int, code: string) | NewVoucherNotice(voucherId: int, code: string)

  /** `lastState == DA_DIEN_RA`, where an untracked voucher has a null last state. */
  predicate WasActive(lastKnown: map<int, TrangThaiCampaign>, v: Voucher)
  {
    v.id in lastKnown && lastKnown[v.id] == DA_DIEN_RA
  }

  /** `lastState != null && lastState == CHUA_DIEN_RA` */
  predicate WasPending(lastKnown: map<int, TrangThaiCampaign>, v: Voucher)
  {
    v.id in lastKnown && lastKnown[v.id] == CHUA_DIEN_RA
  }

  /** findRecentlyExpiredVouchers: the expired candidates that were last known as running, in order. */
  function FindRecentlyExpired(lastKnown: map<int, TrangThaiCampaign>, candidates: seq<Voucher>): (r: seq<Voucher>)
    ensures |r| <= |candidates|
    ensures forall v :: v in r <==> v in candidates && WasActive(lastKnown, v)
  {
    if candidates == [] then []
    else
      var rest := FindRecentlyExpired(lastKnown, candidates[1..]);
      assert candidates == [candidates[0]] + candidates[1..];
      if WasActive(lastKnown, candidates[0]) then [candidates[0]] + rest else rest
  }

  /** findNewlyActivatedVouchers: the running candidates that were last known as not started, in order. */
  function FindNewlyActivated(lastKnown: map<int, TrangThaiCampaign>, candidates: seq<Voucher>): (r: seq<Voucher>)
    ensures |r| <= |candidates|
    ensures forall v :: v in r <==> v in candidates && WasPending(lastKnown, v)
  {
    if candidates == [] then []
    else
      var rest := FindNewlyActivated(lastKnown, candidates[1..]);
      assert candidates == [candidates[0]] + candidates[1..];
      if WasPending(lastKnown, candidates[0]) then [candidates[0]] + rest else rest
  }

  /** A voucher the service has never tracked is neither announced as expired nor as new. */
  lemma UntrackedNeverAnnounced(lastKnown: map<int, TrangThaiCampaign>, expired: seq<Voucher>, active: seq<Voucher>, v: Voucher)
    requires v.id !in lastKnown
    ensures v !in FindRecentlyExpired(lastKnown, expired) && v !in FindNewlyActivated(lastKnown, active)
  {
  }

  /** The map the puts of a loop over `vouchers` leave when started from `m`: the later put wins. */
  function Puts(m: map<int, TrangThaiCampaign>, vouchers: seq<Voucher>): (r: map<int, TrangThaiCampaign>)
    ensures r.Keys == m.Keys + Ids(vouchers)
  {
    if vouchers == [] then m
    else
      var last := vouchers[|vouchers| - 1];
      Puts(m, vouchers[..|vouchers| - 1])[last.id := last.actualStatus]
  }

  function Ids(vouchers: seq<Voucher>): (ids: set<int>)
    ensures forall v :: v in vouchers ==> v.id in ids
    ensures forall id :: id in ids ==> exists v :: v in vouchers && v.id == id
  {
    set v | v in vouchers :: v.id
  }

  /** The tracking state that exactly mirrors a catalogue: each listed id with its last listed state. */
  function StateOf(vouchers: seq<Voucher>): (r: map<int, TrangThaiCampaign>)
    ensures r.Keys == Ids(vouchers)
  {
    Puts(map[], vouchers)
  }

  /** The restriction of `m` to the keys in `ids` (the `removeIf` of the tracking update). */
  function Restrict(m: map<int, TrangThaiCampaign>, ids: set<int>): (r: map<int, TrangThaiCampaign>)
    ensures r.Keys == m.Keys * ids
    ensures forall k :: k in r ==> r[k] == m[k]
  {
    map k | k in m && k in ids :: m[k]
  }

  /** Putting a catalogue over any map overrides every listed id. */
  lemma {:induction false} PutsOverride(m: map<int, TrangThaiCampaign>, vouchers: seq<Voucher>)
    ensures forall k :: k in Ids(vouchers) ==> Puts(m, vouchers)[k] == StateOf(vouchers)[k]
    decreases |vouchers|
  {
    if vouchers != [] {
      var init := vouchers[..|vouchers| - 1];
      PutsOverride(m, init);
      forall k | k in Ids(vouchers)
        ensures Puts(m, vouchers)[k] == StateOf(vouchers)[k]
      {
        var last := vouchers[|vouchers| - 1];
        if k != last.id {
          var v :| v in vouchers && v.id == k;
          var i :| 0 <= i < |vouchers| && vouchers[i] == v;
          assert i < |vouchers| - 1;
          assert init[i] == v;
        }
      }
    }
  }

  /**
   * The tracking update as a whole: whatever was tracked before, the map
   * afterwards holds exactly the current vouchers with their current
   * states.
   */
  lemma TrackingMirrorsCatalogue(m: map<int, TrangThaiCampaign>, vouchers: seq<Voucher>)
    ensures Restrict(Puts(m, vouchers), Ids(vouchers)) == StateOf(vouchers)
  {
    PutsOverride(m, vouchers);
  }

  /** With distinct ids, the tracked state of a listed voucher is its own state. */
  lemma {:induction false} StateOfListed(vouchers: seq<Voucher>, i: int)
    requires 0 <= i < |vouchers|
    requires forall a, b :: 0 <= a < b < |vouchers| ==> vouchers[a].id != vouchers[b].id
    ensures StateOf(vouchers)[vouchers[i].id] == vouchers[i].actualStatus
    decreases |vouchers|
  {
    if i < |vouchers| - 1 {
      StateOfListed(vouchers[..|vouchers| - 1], i);
    }
  }

  /**
   * An expiry is announced once: after a cycle has tracked a voucher as
   * ended, the next cycle's expiry filter skips it.
   */
  lemma ExpiryAnnouncedOnce(vouchers: seq<Voucher>, i: int, candidates: seq<Voucher>)
    requires 0 <= i < |vouchers| && vouchers[i].actualStatus == KET_THUC
    requires forall a, b :: 0 <= a < b < |vouchers| ==> vouchers[a].id != vouchers[b].id
    ensures forall v :: v in FindRecentlyExpired(StateOf(vouchers), candidates) ==> v.id != vouchers[i].id
  {
    StateOfListed(vouchers, i);
  }

  /** The event-driven transitions that send a notice: CHUA→DA a new voucher, DA→KET_THUC an expiry. */
  function TransitionNotice(v: Voucher, oldState: Option<TrangThaiCampaign>, newState: Option<TrangThaiCampaign>): (r: Option<Notice>)
    ensures r == Some(NewVoucherNotice(v.id, v.code)) <==> oldState == Some(CHUA_DIEN_RA) && newState == Some(DA_DIEN_RA)
    ensures r == Some(ExpiredNotice(v.id, v.code)) <==> oldState == Some(DA_DIEN_RA) && newState == Some(KET_THUC)
    ensures r.Some? ==> r == Some(NewVoucherNotice(v.id, v.code)) || r == Some(ExpiredNotice(v.id, v.code))
  {
    if oldState == Some(CHUA_DIEN_RA) && newState == Some(DA_DIEN_RA) then Some(NewVoucherNotice(v.id, v.code))
    else if oldState == Some(DA_DIEN_RA) && newState == Some(KET_THUC) then Some(ExpiredNotice(v.id, v.code))
    else None
  }

  /**
   * An expiry handled as an event is not announced again by the next
   * scheduled cycle, since the recorded state is no longer DA_DIEN_RA.
   */
  lemma EventExpiryNotRepeated(lastKnown: map<int, TrangThaiCampaign>, v: Voucher, candidates: seq<Voucher>)
    ensures forall c :: c in FindRecentlyExpired(lastKnown[v.id := KET_THUC], candidates) ==> c.id != v.id
  {
  }

  function ExpiredNotices(vs: seq<Voucher>): (r: seq<Notice>)
    ensures |r| == |vs| && forall i :: 0 <= i < |vs| ==> r[i] == ExpiredNotice(vs[i].id, vs[i].code)
  {
    seq(|vs|, i requires 0 <= i < |vs| => ExpiredNotice(vs[i].id, vs[i].code))
  }

  function NewVoucherNotices(vs: seq<Voucher>): (r: seq<Notice>)
    ensures |r| == |vs| && forall i :: 0 <= i < |vs| ==> r[i] == NewVoucherNotice(vs[i].id, vs[i].code)
  {
    seq(|vs|, i requires 0 <= i < |vs| => NewVoucherNotice(vs[i].id, vs[i].code))
  }

  class Monitor {
    var lastKnownVoucherStates: map<int, TrangThaiCampaign>
    var initialStatePopulated: bool
    var sent: seq<Notice>

    constructor()
      ensures lastKnownVoucherStates == map[] && !initialStatePopulated && sent == []
    {
      lastKnownVoucherStates := map[];
      initialStatePopulated := false;
      sent := [];
    }

    /** initializeVoucherStateTracking: every voucher's current state is put, then the flag is set. */
    method InitializeVoucherStateTracking(all: seq<Voucher>)
      modifies this
      ensures lastKnownVoucherStates == Puts(old(lastKnownVoucherStates), all)
      ensures initialStatePopulated && sent == old(sent)
    {
      PutAll(all);
      initialStatePopulated := true;
    }

    /** The loop of puts shared by the initialisation and the tracking update. */
    method PutAll(all: seq<Voucher>)
      modifies this`lastKnownVoucherStates
      ensures lastKnownVoucherStates == Puts(old(lastKnownVoucherStates), all)
    {
      var i := 0;
      while i < |all|
        invariant 0 <= i <= |all|
        invariant lastKnownVoucherStates == Puts(old(lastKnownVoucherStates), all[..i])
      {
        assert all[..i + 1][..i] == all[..i];
        lastKnownVoucherStates := lastKnownVoucherStates[all[i].id := all[i].actualStatus];
        i := i + 1;
      }
      assert all[..i] == all;
    }

    /** updateVoucherStateTracking: put every current state, then drop the vouchers that are gone. */
    method UpdateVoucherStateTracking(all: seq<Voucher>)
      modifies this`lastKnownVoucherStates
      ensures lastKnownVoucherStates == StateOf(all)
    {
      PutAll(all);
      ghost var put := lastKnownVoucherStates;
      var currentVoucherIds := set v | v in all :: v.id;
      lastKnownVoucherStates := map k | k in lastKnownVoucherStates && k in currentVoucherIds :: lastKnownVoucherStates[k];
      assert lastKnownVoucherStates == Restrict(put, Ids(all));
      TrackingMirrorsCatalogue(old(lastKnownVoucherStates), all);
    }

    /**
     * monitorVoucherChanges: nothing before the initial state is populated;
     * otherwise an expiry notice for each expired candidate last known as
     * running, a new-voucher notice for each running candidate last known
     * as not started, then the tracking update.
     */
    method MonitorVoucherChanges(expiredCandidates: seq<Voucher>, activeCandidates: seq<Voucher>, all: seq<Voucher>)
      modifies this
      ensures !old(initialStatePopulated) ==>
        lastKnownVoucherStates == old(lastKnownVoucherStates) && sent == old(sent)
      ensures old(initialStatePopulated) ==>
        sent == old(sent) + ExpiredNotices(FindRecentlyExpired(old(lastKnownVoucherStates), expiredCandidates))
                          + NewVoucherNotices(FindNewlyActivated(old(lastKnownVoucherStates), activeCandidates))
        && lastKnownVoucherStates == StateOf(all)
      ensures initialStatePopulated == old(initialStatePopulated)
    {
      if !initialStatePopulated {
        return;
      }
      var expired := FindRecentlyExpired(lastKnownVoucherStates, expiredCandidates);
      var i := 0;
      while i < |expired|
        invariant 0 <= i <= |expired|
        invariant lastKnownVoucherStates == old(lastKnownVoucherStates) && initialStatePopulated
        invariant sent == old(sent) + ExpiredNotices(expired[..i])
      {
        assert ExpiredNotices(expired[..i + 1]) == ExpiredNotices(expired[..i]) + [ExpiredNotice(expired[i].id, expired[i].code)];
        sent := sent + [ExpiredNotice(expired[i].id, expired[i].code)];
        i := i + 1;
      }
      assert expired[..i] == expired;
      var activated := FindNewlyActivated(lastKnownVoucherStates, activeCandidates);
      ghost var afterExpired := sent;
      i := 0;
      while i < |activated|
        invariant 0 <= i <= |activated|
        invariant lastKnownVoucherStates == old(lastKnownVoucherStates) && initialStatePopulated
        invariant sent == afterExpired + NewVoucherNotices(activated[..i])
      {
        assert NewVoucherNotices(activated[..i + 1]) == NewVoucherNotices(activated[..i]) + [NewVoucherNotice(activated[i].id, activated[i].code)];
        sent := sent + [NewVoucherNotice(activated[i].id, activated[i].code)];
        i := i + 1;
      }
      assert activated[..i] == activated;
      UpdateVoucherStateTracking(all);
    }

    /**
     * handleVoucherStateChange: the new state is recorded at once and a
     * CHUA→DA or DA→KET_THUC transition sends its notice. A null new state
     * makes the concurrent map's put throw, which is caught: nothing changes.
     */
    method HandleVoucherStateChange(v: Voucher, oldState: Option<TrangThaiCampaign>, newState: Option<TrangThaiCampaign>)
      modifies this
      ensures newState.None? ==> lastKnownVoucherStates == old(lastKnownVoucherStates) && sent == old(sent)
      ensures newState.Some? ==> lastKnownVoucherStates == old(lastKnownVoucherStates)[v.id := newState.value]
      ensures newState.Some? ==>
        sent == old(sent) + (var n := TransitionNotice(v, oldState, newState); if n.Some? then [n.value] else [])
      ensures initialStatePopulated == old(initialStatePopulated)
    {
      if newState.None? {
        return;
      }
      lastKnownVoucherStates := lastKnownVoucherStates[v.id := newState.value];
      var notice := TransitionNotice(v, oldState, newState);
      if notice.Some? {
        sent := sent + [notice.value];
      }
    }
  }
}
