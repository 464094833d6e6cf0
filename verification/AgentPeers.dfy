/** The server's view of one connected agent: a single job slot shared by the
    hub's frame reader and the SSH sessions (agent.go, agentPeer). */
module AgentPeers {
  import opened Wrappers
  import opened AgentWire

  // Slot changes, as functions of the job that holds it.

  function SlotAfterClaim(slot: Option<JobId>, job: JobId): Option<JobId> {
    if slot.Some? then slot else Some(job)
  }

  // The deferred clean-up clears the slot only if it still names the session's job.
  function SlotAfterRelease(slot: Option<JobId>, job: JobId): Option<JobId> {
    if slot == Some(job) then None else slot
  }

  // The checks a frame passes before it is handed to the slot's event channel.
  predicate PeerAccepts(slot: Option<JobId>, m: Message) {
    && (m.Output? || m.Exit?)
    && (m.Output? ==> |m.data| <= MAX_FRAME)
    && (m.Exit? ==> m.code >= 0)
    && slot == Some(m.id)
  }

  // A fresh channel is made for every job; readers keep a reference to it.
  class EventChannel {
    var queue: seq<Message>

    constructor ()
      ensures queue == []
    {
      queue := [];
    }
  }

  class AgentPeer {
    var jobID: Option<JobId>
    var events: EventChannel?

    // jobID is set exactly when the event channel is.
    ghost predicate Valid()
      reads this
    {
      jobID.Some? <==> events != null
    }

    constructor ()
      ensures Valid() && jobID == None
    {
      jobID, events := None, null;
    }

    // agentSession: take the slot if it is free.
    method Claim(job: JobId) returns (channel: EventChannel?)
      requires Valid()
      modifies this
      ensures Valid() && jobID == SlotAfterClaim(old(jobID), job)
      ensures channel == null <==> old(jobID).Some?
      ensures channel == null ==> events == old(events)
      ensures channel != null ==> fresh(channel) && channel.queue == [] && events == channel
    {
      if events != null {
        return null;
      }
      channel := new EventChannel();
      jobID, events := Some(job), channel;
    }

    // ServeHTTP: find the channel a frame belongs to, or refuse the connection.
    method Route(m: Message) returns (channel: EventChannel?)
      requires Valid()
      ensures channel != null <==> PeerAccepts(jobID, m)
      ensures channel != null <==> && jobID == Some(m.id)
                                   && ((m.Output? && |m.data| <= 16384) || (m.Exit? && m.code >= 0))
      ensures channel != null ==> channel == events
    {
      if !m.Output? && !m.Exit? {
        return null;
      }
      if (m.Output? && |m.data| > MAX_FRAME) || (m.Exit? && m.code < 0) {
        return null;
      }
      if Some(m.id) != jobID || events == null {
        return null;
      }
      return events;
    }

    // agentSession: an exit arrived; free the slot whatever it names.
    method Complete()
      modifies this
      ensures Valid() && jobID == None
    {
      events := null;
      jobID := None;
    }

    // agentSession: deferred clean-up.
    method Release(job: JobId)
      requires Valid()
      modifies this
      ensures Valid() && jobID == SlotAfterRelease(old(jobID), job)
      ensures old(jobID) != Some(job) ==> events == old(events)
    {
      if jobID == Some(job) {
        events := null;
        jobID := None;
      }
    }
  }
}
