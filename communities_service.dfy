/**
 * `RecordCommunitiesService`: the batch coordinator that adds a record to
 * communities (through inclusion requests) and removes it from them. The
 * record's parent holds the membership list that `remove` changes in place;
 * the unit of work collects the deferred operations the coordinator registers.
 */
module CommunitiesService {
  import opened Wrappers
  import opened RecordCommunitiesSpec

  /** The deferred operations the coordinator registers on the unit of work. */
  datatype Op = IndexRefresh | CommitParent(recordPid: string) | IndexRecord(recordPid: string, indexRefresh: bool)

  /** The unit of work: the deferred operations registered so far, in order. */
  class UnitOfWork {
    var ops: seq<Op>

    constructor ()
      ensures ops == []
    {
      ops := [];
    }

    method Register(op: Op)
      modifies this
      ensures ops == old(ops) + [op]
    {
      ops := ops + [op];
    }
  }

  /** A record's parent: its communities (an ordered set of ids) and its default community. */
  class Parent {
    var communities: seq<string>
    var defaultCommunity: Option<string>

    ghost predicate Valid()
      reads this
    {
      NoDuplicates(communities)
    }

    constructor (communities: seq<string>, defaultCommunity: Option<string>)
      requires NoDuplicates(communities)
      ensures Valid()
      ensures this.communities == communities && this.defaultCommunity == defaultCommunity
    {
      this.communities := communities;
      this.defaultCommunity := defaultCommunity;
    }

    /** `communities.remove(id)`: drops the id, and the default community when it is that id. */
    method Remove(communityId: string)
      requires Valid()
      modifies this
      ensures Valid()
      ensures communities == Without(old(communities), communityId)
      ensures defaultCommunity == if old(defaultCommunity) == Some(communityId) then None else old(defaultCommunity)
    {
      communities := Without(communities, communityId);
      if defaultCommunity == Some(communityId) {
        defaultCommunity := None;
      }
    }
  }

  class Record {
    const pid: string
    const parent: Parent

    constructor (pid: string, parent: Parent)
      ensures this.pid == pid && this.parent == parent
    {
      this.pid := pid;
      this.parent := parent;
    }
  }

  /** What `add` reads of the record that the pid resolved to, if any. */
  function View(found: Option<Record>): (v: Option<RecordView>)
    reads if found.Some? then {found.value.parent} else {}
    ensures v.Some? <==> found.Some?
    ensures v.Some? ==> v.value.pid == found.value.pid && v.value.communities == found.value.parent.communities
  {
    match found
    case None => None
    case Some(record) => Some(RecordView(record.pid, record.parent.communities))
  }

  /**
   * The service. `found` is what resolving the record pid returned; the
   * batch caps are the configured maximum numbers of additions and removals.
   */
  class RecordCommunitiesService {
    const maxAdditions: nat
    const maxRemovals: nat

    constructor (maxAdditions: nat, maxRemovals: nat)
      ensures this.maxAdditions == maxAdditions && this.maxRemovals == maxRemovals
    {
      this.maxAdditions := maxAdditions;
      this.maxRemovals := maxRemovals;
    }

    /**
     * `add`: one entry per reference, in order, each in `success` or in
     * `errors`; one index refresh registered after the loop.
     */
    method Add(found: Option<Record>, refs: seq<CommunityRef>, svc: Collaborators, uow: UnitOfWork)
      returns (r: Result<AddReport, Exception>)
      modifies uow
      ensures r == AddSpec(maxAdditions, refs, View(found), svc)
      ensures uow.ops == old(uow.ops) + (if r.Success? then [IndexRefresh] else [])
    {
      if |refs| > maxAdditions {
        return Failure(ValidationError);
      }
      if found.None? {
        return Failure(PidDoesNotExist);
      }
      var record := found.value;
      if !svc.permits(AddCommunity) {
        return Failure(PermissionDenied);
      }
      var members := record.parent.communities;
      assert View(found) == Some(RecordView(record.pid, members));
      var success: seq<Entry>, errors: seq<Entry> := [], [];
      ghost var entries: seq<Entry> := [];
      var i := 0;
      while i < |refs|
        invariant 0 <= i <= |refs|
        invariant AddOutcomes(svc, record.pid, members, refs[..i]) == Success(entries)
        invariant success == Successes(entries) && errors == Errors(entries)
        invariant uow.ops == old(uow.ops)
      {
        var ref := refs[i];
        var outcome := AddItem(svc, record.pid, members, ref);
        match outcome {
          case Failure(e) =>
            AddOutcomesAbort(svc, record.pid, members, refs, i, e);
            return Failure(e);
          case Success(entry) =>
            AddOutcomesStep(svc, record.pid, members, refs, i, entries, entry);
            SplitStep(entries, entry);
            if entry.Added? {
              success := success + [entry];
            } else {
              errors := errors + [entry];
            }
            entries := entries + [entry];
        }
        i := i + 1;
      }
      assert refs[..i] == refs;
      AddSpecReports(maxAdditions, refs, RecordView(record.pid, members), svc, entries);
      r := Success(AddReport(success, errors));
      uow.Register(IndexRefresh);
    }

    /**
     * `_remove`: a non-member raises `RecordCommunityMissing`; only a member
     * is checked for the per-community permission, and then removed.
     */
    method RemoveFromRecord(record: Record, communityId: string, permits: Action -> bool)
      returns (raised: Option<Exception>)
      requires record.parent.Valid()
      modifies record.parent
      ensures record.parent.Valid()
      ensures raised == (if communityId !in old(record.parent.communities) then Some(RecordCommunityMissing)
                         else if !permits(RemoveCommunity(communityId)) then Some(PermissionDenied)
                         else None)
      ensures raised.Some? ==> unchanged(record.parent)
      ensures raised.None? ==>
                && record.parent.communities == Without(old(record.parent.communities), communityId)
                && record.parent.defaultCommunity ==
                     if old(record.parent.defaultCommunity) == Some(communityId) then None
                     else old(record.parent.defaultCommunity)
    {
      if communityId !in record.parent.communities {
        return Some(RecordCommunityMissing);
      }
      if !permits(RemoveCommunity(communityId)) {
        return Some(PermissionDenied);
      }
      record.parent.Remove(communityId);
      raised := None;
    }

    /**
     * `remove`: the record is resolved before the batch is validated; each
     * failure becomes an error entry; the parent is committed and the record
     * indexed once, only if some removal succeeded. Returns the errors.
     */
    method Remove(found: Option<Record>, ids: seq<string>, permits: Action -> bool, uow: UnitOfWork)
      returns (r: Result<seq<Entry>, Exception>)
      requires found.Some? ==> found.value.parent.Valid()
      modifies (if found.Some? then {found.value.parent} else {}), uow
      ensures found.None? ==> r == Failure(PidDoesNotExist) && uow.ops == old(uow.ops)
      ensures found.Some? && |ids| > maxRemovals ==>
                r == Failure(ValidationError) && uow.ops == old(uow.ops) && unchanged(found.value.parent)
      ensures found.Some? && |ids| <= maxRemovals ==>
                var record := found.value;
                var outcome := RemoveAll(permits,
                  Removal(old(record.parent.communities), old(record.parent.defaultCommunity), [], false), ids);
                && r == Success(outcome.errors)
                && record.parent.Valid()
                && record.parent.communities == outcome.members
                && record.parent.defaultCommunity == outcome.defaultCommunity
                && (outcome.changed <==> exists y :: y in old(record.parent.communities) && Removable(permits, ids, y))
                && uow.ops == old(uow.ops) +
                     (if outcome.changed then [CommitParent(record.pid), IndexRecord(record.pid, true)] else [])
    {
      if found.None? {
        return Failure(PidDoesNotExist);
      }
      var record := found.value;
      if |ids| > maxRemovals {
        return Failure(ValidationError);
      }
      ghost var start := Removal(record.parent.communities, record.parent.defaultCommunity, [], false);
      var errors: seq<Entry> := [];
      var commitChanges := false;
      var i := 0;
      while i < |ids|
        invariant 0 <= i <= |ids|
        invariant record.parent.Valid()
        invariant RemoveAll(permits, start, ids[..i]) ==
                    Removal(record.parent.communities, record.parent.defaultCommunity, errors, commitChanges)
        invariant uow.ops == old(uow.ops)
      {
        var communityId := ids[i];
        RemoveAllStep(permits, start, ids, i);
        var raised := RemoveFromRecord(record, communityId, permits);
        match raised {
          case None =>
            commitChanges := true;
          case Some(e) =>
            if e == RecordCommunityMissing {
              errors := errors + [Failed(communityId, NotInCommunity)];
            } else {
              errors := errors + [Failed(communityId, PermissionDeniedMessage)];
            }
        }
        i := i + 1;
      }
      assert ids[..i] == ids;
      if commitChanges {
        uow.Register(CommitParent(record.pid));
        uow.Register(IndexRecord(record.pid, true));
      }
      r := Success(errors);
    }

    /**
     * `search`: after the record is resolved and `read` is granted, the
     * filter admits exactly the record's member communities that the
     * caller's extra filter (if any) also admits.
     */
    function Search(found: Option<Record>, permits: Action -> bool, extra: Option<Filter>): (r: Result<Filter, Exception>)
      reads if found.Some? then {found.value.parent} else {}
      ensures found.None? ==> r == Failure(PidDoesNotExist)
      ensures found.Some? && !permits(Read) ==> r == Failure(PermissionDenied)
      ensures r.Success? <==> found.Some? && permits(Read)
      ensures r.Success? ==>
                forall doc :: Matches(r.value, doc) <==>
                  "id" in doc && doc["id"] in found.value.parent.communities &&
                  (extra.Some? ==> Matches(extra.value, doc))
    {
      match found
      case None => Failure(PidDoesNotExist)
      case Some(record) =>
        if !permits(Read) then Failure(PermissionDenied)
        else Success(CommunitiesFilter(record.parent.communities, extra))
    }
  }
}
