/** Collaborators whose bodies live outside `types.ts`. The decoders call them
    but nothing here depends on how they work, so they are passed in as
    functions and their argument and result types stay abstract. */
module Externals {

  /** An on-chain aggregator snapshot as the wire carries it. */
  type AggregatorSnapshot(==)

  /** A state trigger as the wire carries it. */
  type WireTrigger(==)

  /** A state trigger after `toStateTrigger`. */
  type StateTrigger(==, !new)

  datatype Collaborators = Collaborators(
    /** `normalizeAddress` from the account-address utilities. */
    normalizeAddress: string -> string,
    /** The decimal literal `fromAggregatorSnapshot(s, strToBigInt)` hands to
        `strToBigInt`, whichever shape the snapshot has. */
    snapshotLiteral: AggregatorSnapshot -> string,
    /** `${s}`: a snapshot interpolated into a template string. */
    snapshotText: AggregatorSnapshot -> string,
    /** `toStateTrigger`. */
    toStateTrigger: WireTrigger -> StateTrigger
  )

  /** Ways of writing a number as a snapshot and a trigger back in wire form.
      They exist only to state round trips: the core never encodes. */
  datatype Writers = Writers(
    snapshot: nat -> AggregatorSnapshot,
    trigger: StateTrigger -> WireTrigger
  )
}
