/**
  The records exchanged between the gateway, the bridge and its journal.

  References and timestamps are only ever compared, so they are plain values here; an event
  identifier is the digest of the event's identity, taken as injective.
*/
module GatewayContracts {
  import opened Wrappers

  const MAX_REPLAY_BATCH := 100

  datatype Error =
    | InvalidRequest | ActivationInvalid | ForeignOwner | AssociationRequired | AssociationStale
    | InvalidProvenance | InvalidEvent | PayloadTooLarge | CapabilityDenied | CursorExpired
    | CursorStale | ReplayGap | ResyncRequired | NoNewEvents

  datatype Ownership = UserOwnedSession | FleetOwnedTask

  datatype Status = Observing | Active | Idle | Paused | Detached | Ended {
    predicate Terminal() { Detached? || Ended? }
  }

  datatype Epoch = NoEpoch | Epoch(serial: nat)

  /** Event type and payload together: the payload's shape is fixed by the type. */
  datatype Body =
    | Registered(metadataVersion: nat)
    | StatusChanged(status: Status, metadataVersion: nat)
    | Heartbeat(heartbeatSequence: nat, observedAt: int, ttl: int)
    | MetadataChanged(metadataVersion: nat)
    | SessionDetached(metadataVersion: nat)
    | SessionEnded(metadataVersion: nat)

  datatype EventId = EventId(associationRef: string, epoch: Epoch, sequence: nat, occurredAt: int, body: Body)

  datatype Event = Event(
    eventId: EventId, occurredAt: int, sessionRef: string, associationRef: string, ownership: Ownership,
    epoch: Epoch, sequence: nat, body: Body)

  datatype Snapshot = Snapshot(
    sessionRef: string, associationRef: string, ownership: Ownership, status: Status, epoch: Epoch,
    sequence: nat, metadataVersion: nat)

  datatype Cursor = Cursor(
    associationRef: string, subscriberRef: string, epoch: Epoch, lastSequence: nat, issuedAt: int, expiresAt: int)

  datatype Window = Window(associationRef: string, epoch: Epoch, after: nat, limit: nat)

  datatype Observer = Observer(observerRef: string, ownerRef: Option<string>, profileRef: Option<string>)

  datatype AssociationRef = AssociationRef(
    associationRef: string, sessionRef: string, ownerRef: Option<string>, profileRef: Option<string>,
    workspaceRef: Option<string>, ownership: Ownership)

  datatype Delivery = Delivery(snapshot: Snapshot, events: seq<Event>, cursor: Cursor)

  /** Events that continue a stream from `after`, one sequence number at a time. */
  ghost predicate Follows(events: seq<Event>, after: nat) {
    forall i | 0 <= i < |events| :: events[i].sequence == after + 1 + i
  }
}
