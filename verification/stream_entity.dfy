/**
 * The streaming service's Stream entity and its three-state status.
 *
 * NewStream reads the clock twice (CreatedAt, UpdatedAt); both readings and
 * the fresh id are parameters.
 */
module StreamEntity {
  import opened Common

  const Active := "active"
  const Ended := "ended"
  const Scheduled := "scheduled"

  const EmptyTitle := "title cannot be empty"
  const InvalidStatus := "invalid stream status"

  predicate IsStreamStatus(s: string)
  {
    s == Active || s == Ended || s == Scheduled
  }

  /** The status after UpdateStatus(requested): the request if allowed, else unchanged. */
  function NextStatus(current: string, requested: string): (s: string)
    ensures IsStreamStatus(requested) ==> s == requested
    ensures !IsStreamStatus(requested) ==> s == current
    ensures IsStreamStatus(current) ==> IsStreamStatus(s)
  {
    if IsStreamStatus(requested) then requested else current
  }

  /** The status after a sequence of UpdateStatus calls, applied in order. */
  function StatusAfter(start: string, requests: seq<string>): string
  {
    if requests == [] then start
    else NextStatus(StatusAfter(start, requests[..|requests| - 1]), requests[|requests| - 1])
  }

  /** From an allowed status, any sequence of updates ends in an allowed status. */
  lemma {:induction false} StatusStaysAllowed(start: string, requests: seq<string>)
    requires IsStreamStatus(start)
    ensures IsStreamStatus(StatusAfter(start, requests))
  {
    if requests != [] {
      StatusStaysAllowed(start, requests[..|requests| - 1]);
    }
  }

  /** The status after a sequence is the last allowed request in it, or the start when there is none. */
  lemma {:induction false} StatusAfterIsLastAllowed(start: string, requests: seq<string>)
    ensures (forall i :: 0 <= i < |requests| ==> !IsStreamStatus(requests[i])) ==> StatusAfter(start, requests) == start
    ensures forall i :: 0 <= i < |requests| && IsStreamStatus(requests[i])
                        && (forall j :: i < j < |requests| ==> !IsStreamStatus(requests[j]))
                        ==> StatusAfter(start, requests) == requests[i]
  {
    if requests != [] {
      var init := requests[..|requests| - 1];
      StatusAfterIsLastAllowed(start, init);
      assert forall i :: 0 <= i < |init| ==> init[i] == requests[i];
    }
  }

  /** Every allowed status may follow every status. */
  lemma AnyAllowedStatusFollows(current: string, requested: string)
    requires IsStreamStatus(requested)
    ensures StatusAfter(current, [requested]) == requested
  {
  }

  class Stream {
    var id: Uuid
    var title: string
    var userId: Uuid
    var status: string
    var createdAt: Instant
    var updatedAt: Instant

    /** The struct literal of NewStream. */
    constructor (id: Uuid, title: string, userId: Uuid, createdAt: Instant, updatedAt: Instant)
      ensures this.id == id && this.title == title && this.userId == userId
      ensures status == Scheduled && this.createdAt == createdAt && this.updatedAt == updatedAt
    {
      this.id := id;
      this.title := title;
      this.userId := userId;
      status := Scheduled;
      this.createdAt := createdAt;
      this.updatedAt := updatedAt;
    }

    ghost predicate Valid()
      reads this
    {
      IsStreamStatus(status)
    }

    /** UpdateStatus at instant now: a rejected status changes nothing. */
    method UpdateStatus(requested: string, now: Instant) returns (err: Option<string>)
      modifies this
      ensures err.None? <==> IsStreamStatus(requested)
      ensures err.Some? ==> err.value == InvalidStatus
      ensures status == NextStatus(old(status), requested)
      ensures updatedAt == (if IsStreamStatus(requested) then now else old(updatedAt))
      ensures id == old(id) && title == old(title) && userId == old(userId) && createdAt == old(createdAt)
      ensures old(Valid()) ==> Valid()
    {
      if requested != Active && requested != Ended && requested != Scheduled {
        return Some(InvalidStatus);
      }
      status := requested;
      updatedAt := now;
      err := None;
    }
  }

  /** NewStream: an empty title is refused; otherwise a scheduled stream. */
  method NewStream(title: string, userId: Uuid, newId: Uuid, createdAt: Instant, updatedAt: Instant)
    returns (s: Stream?, err: Option<string>)
    ensures title == "" <==> s == null
    ensures title == "" ==> err == Some(EmptyTitle)
    ensures title != "" ==>
      && err.None? && fresh(s)
      && s.id == newId && s.title == title && s.userId == userId && s.status == Scheduled
      && s.createdAt == createdAt && s.updatedAt == updatedAt && s.Valid()
  {
    if title == "" {
      return null, Some(EmptyTitle);
    }
    s := new Stream(newId, title, userId, createdAt, updatedAt);
    err := None;
  }
}
