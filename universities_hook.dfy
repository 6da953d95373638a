/** The universities hook: the AI recommendations, the shortlist, and the lock and
    unlock actions that move the student between the discover and lock_choices stages. */
module UniversitiesHook {
  import opened JsValues
  import opened Domain
  import opened Seqs
  import opened DashboardStats

  /** `list.filter(u => u.id !== id)`: a university without an id is always kept. */
  function WithoutId(us: seq<University>, id: string): (r: seq<University>)
    ensures forall i :: 0 <= i < |r| ==> r[i].id != Some(id) && r[i] in us
    ensures forall i :: 0 <= i < |us| && us[i].id != Some(id) ==> us[i] in r
    ensures IsSubsequence(r, us)
  {
    FilterIsSubsequence((u: University) => u.id != Some(id), us);
    Filter((u: University) => u.id != Some(id), us)
  }

  /** `list.filter(u => u.name !== name)`. */
  function WithoutName(us: seq<University>, name: string): (r: seq<University>)
    ensures forall i :: 0 <= i < |r| ==> r[i].name != name && r[i] in us
    ensures forall i :: 0 <= i < |us| && us[i].name != name ==> us[i] in r
    ensures IsSubsequence(r, us)
  {
    FilterIsSubsequence((u: University) => u.name != name, us);
    Filter((u: University) => u.name != name, us)
  }

  /** `list.map(u => u.id === id ? { ...u, is_locked: v } : u)`. */
  function SetLocked(us: seq<University>, id: string, v: bool): (r: seq<University>)
    ensures |r| == |us|
    ensures forall i :: 0 <= i < |us| ==> r[i] == if us[i].id == Some(id) then us[i].(is_locked := v) else us[i]
  {
    seq(|us|, i requires 0 <= i < |us| => if us[i].id == Some(id) then us[i].(is_locked := v) else us[i])
  }

  /** `lockedCount`: how many shortlisted universities are locked. */
  function LockedCount(us: seq<University>): (n: nat)
    ensures n <= |us|
    ensures n > 0 <==> exists i :: 0 <= i < |us| && us[i].is_locked
  {
    FilterNonEmpty((u: University) => u.is_locked, us);
    |Filter((u: University) => u.is_locked, us)|
  }

  /** The row the database returns for a shortlisted recommendation: the same
      university, now with an id, shortlisted and not locked. */
  function ShortlistRow(u: University, newId: string): University {
    u.(id := Some(newId), is_shortlisted := true, is_locked := false)
  }

  /** Unlocking after locking is the same as unlocking; it restores the list when no
      entry with that id was locked before. */
  lemma UnlockAfterLock(us: seq<University>, id: string)
    ensures SetLocked(SetLocked(us, id, true), id, false) == SetLocked(us, id, false)
    ensures (forall i :: 0 <= i < |us| && us[i].id == Some(id) ==> !us[i].is_locked) ==>
      SetLocked(SetLocked(us, id, true), id, false) == us
  {
  }

  /** Locking an entry that is present makes the locked count positive; unlocking the
      only locked entries brings it to zero. */
  lemma LockedCountAfterUpdate(us: seq<University>, id: string)
    ensures (exists i :: 0 <= i < |us| && us[i].id == Some(id)) ==> LockedCount(SetLocked(us, id, true)) > 0
    ensures (forall i :: 0 <= i < |us| && us[i].is_locked ==> us[i].id == Some(id)) ==>
      LockedCount(SetLocked(us, id, false)) == 0
  {
    var locked := SetLocked(us, id, true);
    if exists i :: 0 <= i < |us| && us[i].id == Some(id) {
      var i :| 0 <= i < |us| && us[i].id == Some(id);
      assert locked[i].is_locked;
    }
    var unlocked := SetLocked(us, id, false);
    if forall i :: 0 <= i < |us| && us[i].is_locked ==> us[i].id == Some(id) {
      assert forall i :: 0 <= i < |unlocked| ==> !unlocked[i].is_locked;
    }
  }

  /** What the recommendations endpoint answered. */
  datatype RecommendationsReply =
    | Failed(status: int)              // a non-OK HTTP status
    | Unreachable                      // the request itself threw
    | Answered(universities: Option<seq<University>>)

  /** The toast a generation shows. */
  datatype Notice = NoNotice | RateLimitNotice | CreditsNotice | ErrorNotice | Generated(count: nat)

  /** 429 and 402 are told apart from every other failure. */
  function NoticeFor(reply: RecommendationsReply): (n: Notice)
    ensures n == RateLimitNotice <==> reply == Failed(429)
    ensures n == CreditsNotice <==> reply == Failed(402)
    ensures n.Generated? <==> reply.Answered?
  {
    match reply
    case Answered(us) => Generated(|GetOr(us, [])|)
    case Failed(status) =>
      if status == RATE_LIMITED then RateLimitNotice
      else if status == CREDITS_EXHAUSTED then CreditsNotice
      else ErrorNotice
    case Unreachable => ErrorNotice
  }

  /** The hook's state, with the stage syncs it has fired in order. */
  class UniversitiesHookState {
    var recommendations: seq<University>
    var shortlisted: seq<University>
    var isGenerating: bool
    var isLoading: bool
    var syncRequests: seq<Stage>

    constructor ()
      ensures recommendations == [] && shortlisted == [] && !isGenerating && isLoading && syncRequests == []
    {
      recommendations := [];
      shortlisted := [];
      isGenerating := false;
      isLoading := true;
      syncRequests := [];
    }

    /** `fetchShortlisted`: the user's shortlisted rows replace the list when the query
        succeeds; loading ends on every path. */
    method FetchShortlisted(hasUser: bool, rows: Option<seq<University>>)
      modifies this`shortlisted, this`isLoading
      ensures shortlisted == if hasUser && rows.Some? then rows.value else old(shortlisted)
      ensures !isLoading
    {
      if !hasUser {
        isLoading := false;
        return;
      }
      if rows.Some? {
        shortlisted := rows.value;
      }
      isLoading := false;
    }

    /** `generateRecommendations`: nothing happens without a profile or while a
        generation runs; a successful answer replaces the recommendations wholesale,
        any failure leaves them as they were, and 429 and 402 get their own notices. */
    method GenerateRecommendations(hasProfile: bool, reply: RecommendationsReply) returns (notice: Notice)
      modifies this`recommendations, this`isGenerating
      ensures !hasProfile || old(isGenerating) ==>
        notice == NoNotice && recommendations == old(recommendations) && isGenerating == old(isGenerating)
      ensures hasProfile && !old(isGenerating) ==> (!isGenerating
        && recommendations == (if reply.Answered? then GetOr(reply.universities, []) else old(recommendations))
        && notice == NoticeFor(reply))
    {
      if !hasProfile || isGenerating {
        return NoNotice;
      }
      isGenerating := true;
      if reply.Answered? {
        recommendations := GetOr(reply.universities, []);
        notice := Generated(|recommendations|);
      } else if reply.Failed? && reply.status == RATE_LIMITED {
        notice := RateLimitNotice;
      } else if reply.Failed? && reply.status == CREDITS_EXHAUSTED {
        notice := CreditsNotice;
      } else {
        notice := ErrorNotice;
      }
      isGenerating := false;
    }

    /** `addToShortlist`: on a successful insert the new row goes to the end of the
        shortlist and every recommendation with the same name disappears; a missing
        user or a failed insert changes nothing. */
    method AddToShortlist(university: University, hasUser: bool, insertedId: Option<string>)
      modifies this`shortlisted, this`recommendations
      ensures hasUser && insertedId.Some? ==>
        shortlisted == old(shortlisted) + [ShortlistRow(university, insertedId.value)]
        && recommendations == WithoutName(old(recommendations), university.name)
      ensures !(hasUser && insertedId.Some?) ==>
        shortlisted == old(shortlisted) && recommendations == old(recommendations)
    {
      if !hasUser || insertedId.None? {
        return;
      }
      shortlisted := shortlisted + [ShortlistRow(university, insertedId.value)];
      recommendations := WithoutName(recommendations, university.name);
    }

    /** `removeFromShortlist`: a successful delete drops every entry with that id. */
    method RemoveFromShortlist(universityId: string, deleteOk: bool)
      modifies this`shortlisted
      ensures shortlisted == if deleteOk then WithoutId(old(shortlisted), universityId) else old(shortlisted)
    {
      if deleteOk {
        shortlisted := WithoutId(shortlisted, universityId);
      }
    }

    /** `lockUniversity`: a successful update locks the entries with that id and, when
        exactly one entry is locked afterwards, fires the lock_choices sync. A failed
        update changes nothing and fires nothing. */
    method LockUniversity(universityId: string, updateOk: bool)
      modifies this`shortlisted, this`syncRequests
      ensures !updateOk ==> shortlisted == old(shortlisted) && syncRequests == old(syncRequests)
      ensures updateOk ==> (shortlisted == SetLocked(old(shortlisted), universityId, true)
        && syncRequests == old(syncRequests) + (if LockedCount(shortlisted) == 1 then [LockChoices] else []))
    {
      if !updateOk {
        return;
      }
      var updated := SetLocked(shortlisted, universityId, true);
      shortlisted := updated;
      if LockedCount(updated) == 1 {
        syncRequests := syncRequests + [LockChoices];
      }
    }

    /** `unlockUniversity`: a successful update unlocks the entries with that id and,
        when nothing is locked afterwards, fires the discover sync. */
    method UnlockUniversity(universityId: string, updateOk: bool)
      modifies this`shortlisted, this`syncRequests
      ensures !updateOk ==> shortlisted == old(shortlisted) && syncRequests == old(syncRequests)
      ensures updateOk ==> (shortlisted == SetLocked(old(shortlisted), universityId, false)
        && syncRequests == old(syncRequests) + (if LockedCount(shortlisted) == 0 then [Discover] else []))
    {
      if !updateOk {
        return;
      }
      var updated := SetLocked(shortlisted, universityId, false);
      shortlisted := updated;
      if LockedCount(updated) == 0 {
        syncRequests := syncRequests + [Discover];
      }
    }
  }
}
