/**
 * LocalDiscovery: announces this Hoccer client over mDNS and keeps the set of
 * peer IDs that the provider reports as visible, notifying registered listeners
 * whenever that set changes.
 *
 * Each public method and each provider callback is modelled as one atomic step;
 * the source's `synchronized` blocks and its announcement thread are not modelled.
 */
module Discovery {
  import opened Wrappers
  import opened ZeroConf

  /** Key of the client-ID property of an mDNS record. */
  const ID_PROPERTY: string := "id"

  /** An opaque listener handle. */
  datatype Listener = Listener(handle: nat)

  /** One invocation of a listener: whom, with which copy of the peer set, and whether it threw. */
  datatype Notification = Notification(listener: Listener, peers: set<string>, threw: bool)

  /** The result of a check-then-add or check-then-remove on the peer set. */
  datatype PeerUpdate = PeerUpdate(visible: set<string>, changed: bool)

  /** A provider callback about some record. */
  datatype Callback = Updated(record: Record) | Removed(record: Record)

  // ---------------------------------------------------------------------------
  // Record classification

  /**
   * `extractId`: the Hoccer peer ID carried by `r`, or null when `r` has no ID
   * property (not a Hoccer client) or carries the same ID as our own record
   * (an update about ourselves).
   */
  function ExtractId(r: Record, own: Record): (id: Option<string>)
    ensures ID_PROPERTY !in r.properties ==> id == None
    ensures ID_PROPERTY in r.properties && PropertyString(own, ID_PROPERTY) == Some(r.properties[ID_PROPERTY])
            ==> id == None
    ensures ID_PROPERTY in r.properties && PropertyString(own, ID_PROPERTY) != Some(r.properties[ID_PROPERTY])
            ==> id == Some(r.properties[ID_PROPERTY])
  {
    var id := PropertyString(r, ID_PROPERTY);
    if id.None? then None
    else
      var myId := PropertyString(own, ID_PROPERTY);
      if myId == Some(id.value) then None
      else id
  }

  /** The classification never yields our own published ID. */
  lemma ExtractIdIsNeverOwn(r: Record, own: Record)
    requires ID_PROPERTY in own.properties
    ensures ExtractId(r, own) != Some(own.properties[ID_PROPERTY])
  {
  }

  /** Before the first publish our record has no ID, so every ID counts as a peer. */
  lemma ExtractIdBeforePublish(r: Record, own: Record)
    requires ID_PROPERTY !in own.properties
    ensures ExtractId(r, own) == PropertyString(r, ID_PROPERTY)
  {
  }

  // ---------------------------------------------------------------------------
  // Peer-set update rules (the bodies of the two provider callbacks)

  /** `serviceUpdated`: add a peer ID that is not yet visible; ignore null. */
  function Sighted(visible: set<string>, id: Option<string>): (u: PeerUpdate)
    ensures u.changed <==> u.visible != visible
  {
    if id.Some? && id.value !in visible then PeerUpdate(visible + {id.value}, true)
    else PeerUpdate(visible, false)
  }

  /** `serviceRemoved`: remove a visible peer ID; ignore null and absent IDs. */
  function Vanished(visible: set<string>, id: Option<string>): (u: PeerUpdate)
    ensures u.changed <==> u.visible != visible
  {
    if id.Some? && id.value in visible then PeerUpdate(visible - {id.value}, true)
    else PeerUpdate(visible, false)
  }

  /** A first sighting of a peer adds exactly that ID and reports a change. */
  lemma SightedNewPeer(visible: set<string>, id: string)
    requires id !in visible
    ensures Sighted(visible, Some(id)) == PeerUpdate(visible + {id}, true)
    ensures id in Sighted(visible, Some(id)).visible
  {
  }

  /** A null ID or an ID already visible changes nothing and reports no change. */
  lemma SightedNoChange(visible: set<string>, id: Option<string>)
    requires id.None? || id.value in visible
    ensures Sighted(visible, id) == PeerUpdate(visible, false)
  {
  }

  /** Sighting the same peer twice in a row changes the set only the first time. */
  lemma SightedIdempotent(visible: set<string>, id: Option<string>)
    ensures var u := Sighted(visible, id);
            Sighted(u.visible, id) == PeerUpdate(u.visible, false)
  {
  }

  /** Removal touches no ID but the removed one, in either direction. */
  lemma VanishedFrame(visible: set<string>, id: Option<string>, other: string)
    requires id != Some(other)
    ensures other in Vanished(visible, id).visible <==> other in visible
    ensures id.Some? ==> id.value !in Vanished(visible, id).visible
  {
  }

  /** Removing a peer that was just sighted for the first time restores the previous set. */
  lemma VanishedUndoesSighted(visible: set<string>, id: string)
    requires id !in visible
    ensures Vanished(Sighted(visible, Some(id)).visible, Some(id)) == PeerUpdate(visible, true)
  {
  }

  /** The peer set after the provider delivers `cbs` in order, our own record staying `own`. */
  function Replay(visible: set<string>, own: Record, cbs: seq<Callback>): set<string>
    decreases |cbs|
  {
    if cbs == [] then visible
    else
      var last := cbs[|cbs| - 1];
      var before := Replay(visible, own, cbs[..|cbs| - 1]);
      match last
      case Updated(r) => Sighted(before, ExtractId(r, own)).visible
      case Removed(r) => Vanished(before, ExtractId(r, own)).visible
  }

  /**
   * Delivering `cbs` and then `c` is delivering `c` to the set `cbs` left, so a run of
   * `ServiceUpdated`/`ServiceRemoved` calls under one record is one `Replay`.
   */
  lemma ReplayAppend(visible: set<string>, own: Record, cbs: seq<Callback>, c: Callback)
    ensures Replay(visible, own, cbs + [c]) == Replay(Replay(visible, own, cbs), own, [c])
  {
    assert (cbs + [c])[..|cbs|] == cbs;
    assert [c][..0] == [];
  }

  /** Once published, our own ID neither enters nor leaves the peer set through any callbacks. */
  lemma {:induction false} ReplayKeepsOwnId(visible: set<string>, own: Record, cbs: seq<Callback>)
    requires ID_PROPERTY in own.properties
    ensures own.properties[ID_PROPERTY] in Replay(visible, own, cbs)
            <==> own.properties[ID_PROPERTY] in visible
    decreases |cbs|
  {
    if cbs != [] {
      var last := cbs[|cbs| - 1];
      ReplayKeepsOwnId(visible, own, cbs[..|cbs| - 1]);
      ExtractIdIsNeverOwn(last.record, own);
    }
  }

  /**
   * A peer ID held back as "self" is released again once this client publishes a
   * different ID: a removal callback carrying it then takes it out of the set.
   */
  lemma RepublishReleasesId(visible: set<string>, own: Record, r: Record)
    requires ID_PROPERTY in r.properties && r.properties[ID_PROPERTY] in visible
    requires PropertyString(own, ID_PROPERTY) != Some(r.properties[ID_PROPERTY])
    ensures Vanished(visible, ExtractId(r, own)) == PeerUpdate(visible - {r.properties[ID_PROPERTY]}, true)
  {
  }

  /** Every visible ID was already visible or is the ID of some record the provider reported as updated. */
  lemma {:induction false} ReplayOnlyAddsSightedIds(visible: set<string>, own: Record, cbs: seq<Callback>, id: string)
    requires id in Replay(visible, own, cbs)
    ensures id in visible
            || exists i :: 0 <= i < |cbs| && cbs[i].Updated? && PropertyString(cbs[i].record, ID_PROPERTY) == Some(id)
    decreases |cbs|
  {
    if cbs != [] {
      var prefix := cbs[..|cbs| - 1];
      var last := cbs[|cbs| - 1];
      var before := Replay(visible, own, prefix);
      if id in before {
        ReplayOnlyAddsSightedIds(visible, own, prefix, id);
        if !(id in visible) {
          var i :| 0 <= i < |prefix| && prefix[i].Updated? && PropertyString(prefix[i].record, ID_PROPERTY) == Some(id);
          assert cbs[i] == prefix[i];
        }
      } else {
        assert last.Updated? && ExtractId(last.record, own) == Some(id);
        assert cbs[|cbs| - 1] == last;
      }
    }
  }

  // ---------------------------------------------------------------------------
  // Listener fan-out

  /** The listeners called, in call order. */
  function Targets(calls: seq<Notification>): (ls: seq<Listener>)
    ensures |ls| == |calls|
    decreases |calls|
  {
    if calls == [] then []
    else Targets(calls[..|calls| - 1]) + [calls[|calls| - 1].listener]
  }

  /**
   * `onVisiblePeersChanged` as observed: every listener of `ls` was called exactly
   * once, each with the same copy `peers` of the visible set, and each threw
   * exactly when it is one of `throwing`; a throwing listener does not stop the rest.
   */
  ghost predicate FanOut(calls: seq<Notification>, ls: set<Listener>, peers: set<string>, throwing: set<Listener>)
  {
    multiset(Targets(calls)) == multiset(ls) && Uniform(calls, peers, throwing)
  }

  /** Every call in `calls` was passed `peers`, and threw exactly when its listener is in `throwing`. */
  ghost predicate Uniform(calls: seq<Notification>, peers: set<string>, throwing: set<Listener>)
  {
    forall i :: 0 <= i < |calls| ==> calls[i].peers == peers && calls[i].threw == (calls[i].listener in throwing)
  }

  lemma FanOutStep(calls: seq<Notification>, pending: set<Listener>, ls: set<Listener>,
                   peers: set<string>, throwing: set<Listener>, x: Listener)
    requires x in pending
    requires multiset(Targets(calls)) + multiset(pending) == multiset(ls)
    requires Uniform(calls, peers, throwing)
    ensures var n := Notification(x, peers, x in throwing);
            && multiset(Targets(calls + [n])) + multiset(pending - {x}) == multiset(ls)
            && Uniform(calls + [n], peers, throwing)
  {
    var n := Notification(x, peers, x in throwing);
    assert (calls + [n])[..|calls|] == calls;
    assert Targets(calls + [n]) == Targets(calls) + [x];
    SetRemoveMultiset(pending, x);
  }

  lemma SetRemoveMultiset(s: set<Listener>, x: Listener)
    requires x in s
    ensures multiset(s - {x}) + multiset{x} == multiset(s)
  {
    assert s == (s - {x}) + {x};
  }

  // ---------------------------------------------------------------------------
  // The stateful component

  class LocalDiscovery {
    /** `mListeners` */
    var listeners: set<Listener>
    /** `mVisibleIds` */
    var visibleIds: set<string>
    /** `mRecord`, the record announcing this client */
    var record: Record
    /** The calls received so far by the provider (`mZeroConf`). */
    var providerCalls: seq<ProviderCall>
    /** The listener invocations made so far. */
    var notifications: seq<Notification>

    /**
     * Not connected and not announcing; the record is prepared with port 0, the
     * Hoccer service type and a client key (a random UUID in the source, given here).
     */
    constructor (clientKey: string)
      ensures listeners == {} && visibleIds == {} && notifications == []
      ensures record == NewRecord(0, clientKey)
      ensures providerCalls == [RegisterListener]
    {
      visibleIds := {};
      listeners := {};
      providerCalls := [RegisterListener];
      record := NewRecord(0, clientKey);
      notifications := [];
    }

    /** The ID this client announces, once published. */
    function OwnId(): Option<string>
      reads this
    {
      PropertyString(record, ID_PROPERTY)
    }

    /** Sets the record's name and ID property, then asks the provider to register it. */
    method PublishAnnouncement(name: string, clientId: string)
      modifies this
      ensures record == SetProperty(old(record).(name := Some(name)), ID_PROPERTY, clientId)
      ensures OwnId() == Some(clientId)
      ensures providerCalls == old(providerCalls) + [RegisterService(record)]
      ensures listeners == old(listeners) && visibleIds == old(visibleIds)
      ensures notifications == old(notifications)
    {
      record := record.(name := Some(name));
      record := SetProperty(record, ID_PROPERTY, clientId);
      providerCalls := providerCalls + [RegisterService(record)];
    }

    /** Asks the provider to unregister the record with our client key. */
    method RevokeAnnouncement()
      modifies this`providerCalls
      ensures providerCalls == old(providerCalls) + [UnregisterService(record.clientKey)]
    {
      providerCalls := providerCalls + [UnregisterService(record.clientKey)];
    }

    method Connect()
      modifies this`providerCalls
      ensures providerCalls == old(providerCalls) + [ConnectToService]
    {
      providerCalls := providerCalls + [ConnectToService];
    }

    method Disconnect()
      modifies this`providerCalls
      ensures providerCalls == old(providerCalls) + [DisconnectFromService]
    {
      providerCalls := providerCalls + [DisconnectFromService];
    }

    /** The peer IDs currently visible. */
    method GetVisibleIds() returns (ids: set<string>)
      ensures ids == visibleIds
    {
      ids := visibleIds;
    }

    /** Attaches a listener; attaching one that is attached already changes nothing. */
    method AddListener(l: Listener)
      modifies this`listeners
      ensures listeners == old(listeners) + {l}
      ensures l in old(listeners) ==> listeners == old(listeners)
    {
      listeners := listeners + {l};
    }

    /** Detaches a listener; detaching one that is not attached changes nothing. */
    method RemoveListener(l: Listener)
      modifies this`listeners
      ensures listeners == old(listeners) - {l}
      ensures l !in old(listeners) ==> listeners == old(listeners)
    {
      listeners := listeners - {l};
    }

    /**
     * `onVisiblePeersChanged`: copies the visible set and the listener set, then
     * calls every listener with the copy; the ones in `throwing` throw, which is
     * caught, and the loop goes on.
     */
    method NotifyVisiblePeersChanged(throwing: set<Listener>)
      modifies this`notifications
      ensures |notifications| == |old(notifications)| + |listeners|
      ensures notifications[..|old(notifications)|] == old(notifications)
      ensures FanOut(notifications[|old(notifications)|..], listeners, visibleIds, throwing)
    {
      var peerIds := visibleIds;
      var pending := listeners;
      ghost var calls: seq<Notification> := [];
      while pending != {}
        invariant pending <= listeners
        invariant notifications == old(notifications) + calls
        invariant |calls| + |pending| == |listeners|
        invariant multiset(Targets(calls)) + multiset(pending) == multiset(listeners)
        invariant Uniform(calls, peerIds, throwing)
        decreases |pending|
      {
        var listener :| listener in pending;
        var n := Notification(listener, peerIds, listener in throwing);
        FanOutStep(calls, pending, listeners, peerIds, throwing, listener);
        notifications := notifications + [n];
        calls := calls + [n];
        pending := pending - {listener};
      }
      assert notifications[|old(notifications)|..] == calls;
    }

    /**
     * The provider reports a new or changed record: a peer ID not yet visible is
     * added and the listeners are notified once; anything else changes nothing.
     */
    method ServiceUpdated(r: Record, throwing: set<Listener>)
      modifies this`visibleIds, this`notifications
      ensures var u := Sighted(old(visibleIds), ExtractId(r, record));
              visibleIds == u.visible
              && (if u.changed
                  then |notifications| == |old(notifications)| + |listeners|
                       && notifications[..|old(notifications)|] == old(notifications)
                       && FanOut(notifications[|old(notifications)|..], listeners, visibleIds, throwing)
                  else notifications == old(notifications))
      ensures visibleIds == Replay(old(visibleIds), record, [Updated(r)])
      ensures OwnId().Some? ==> (OwnId().value in visibleIds <==> OwnId().value in old(visibleIds))
    {
      var hoccerClientId := ExtractId(r, record);
      if hoccerClientId.Some? {
        var peersChanged := false;
        if hoccerClientId.value !in visibleIds {
          visibleIds := visibleIds + {hoccerClientId.value};
          peersChanged := true;
        }
        if peersChanged {
          NotifyVisiblePeersChanged(throwing);
        }
      }
    }

    /**
     * The provider reports a record gone: a visible peer ID is removed and the
     * listeners are notified once; anything else changes nothing.
     */
    method ServiceRemoved(r: Record, throwing: set<Listener>)
      modifies this`visibleIds, this`notifications
      ensures var u := Vanished(old(visibleIds), ExtractId(r, record));
              visibleIds == u.visible
              && (if u.changed
                  then |notifications| == |old(notifications)| + |listeners|
                       && notifications[..|old(notifications)|] == old(notifications)
                       && FanOut(notifications[|old(notifications)|..], listeners, visibleIds, throwing)
                  else notifications == old(notifications))
      ensures visibleIds == Replay(old(visibleIds), record, [Removed(r)])
      ensures OwnId().Some? ==> (OwnId().value in visibleIds <==> OwnId().value in old(visibleIds))
    {
      var hoccerClientId := ExtractId(r, record);
      if hoccerClientId.Some? {
        var peersChanged := false;
        if hoccerClientId.value in visibleIds {
          visibleIds := visibleIds - {hoccerClientId.value};
          peersChanged := true;
        }
        if peersChanged {
          NotifyVisiblePeersChanged(throwing);
        }
      }
    }
  }
}
