/**
 * The records the claim batching service works on: claims, batches and
 * insurers, with the defaults of the insurers table.  Dates are whole day
 * numbers; money is counted in cents.
 */
module Domain {

  datatype Option<T> = None | Some(value: T)

  /** Why a whole operation was rolled back. */
  datatype Failure =
    | DuplicateIdentifier   // the unique index on batches.batch_identifier refused a new batch
    | UnknownInsurer        // a batch names an insurer that is not on record
    | UnknownProvider       // a batch names a provider that is not on record

  datatype Result<T> = Ok(value: T) | Err(error: Failure)

  // Column defaults of the insurers table.
  const DEFAULT_DAILY_CAPACITY: int := 100
  const DEFAULT_MIN_BATCH_SIZE: int := 5
  const DEFAULT_MAX_BATCH_SIZE: int := 50
  const DEFAULT_PREFERS_ENCOUNTER_DATE: bool := true

  /** Number of batches the scheduler loads per page. */
  const PAGE_SIZE: nat := 100

  /** A batch is split only when it is more than this many claims over the maximum. */
  const SPLIT_TOLERANCE: int := 2

  datatype Insurer = Insurer(
    name: string,
    code: string,
    dailyCapacity: int,
    minBatchSize: int,
    maxBatchSize: int,
    prefersEncounterDate: bool)

  /** An insurer created with only a name and a code takes the column defaults. */
  function NewInsurer(name: string, code: string): Insurer
  {
    Insurer(name, code, DEFAULT_DAILY_CAPACITY, DEFAULT_MIN_BATCH_SIZE,
            DEFAULT_MAX_BATCH_SIZE, DEFAULT_PREFERS_ENCOUNTER_DATE)
  }

  /** A claim; `batch` is the nullable batch_id column. */
  datatype Claim = Claim(
    provider: nat,
    insurer: nat,
    specialty: nat,
    batch: Option<nat>,
    encounterDate: int,
    submissionDate: int,
    priority: int,
    amount: int,
    processed: bool)

  /**
   * A batch identifier: the provider's name, the batch date as the service
   * formats it, and the optional "#N" suffix of overflow and split batches.
   * Two identifiers are equal exactly when their three parts are.
   */
  datatype Identifier = Identifier(providerName: string, batchDate: int, suffix: Option<nat>)

  datatype Batch = Batch(
    provider: nat,
    insurer: nat,
    batchDate: int,
    ident: Identifier,
    totalClaims: int,
    totalAmount: int,
    cost: real,
    processed: bool,
    processingDate: int)

  /** A freshly created batch: no claims, no cost, not processed. */
  function EmptyBatch(provider: nat, insurer: nat, batchDate: int, ident: Identifier, processingDate: int): Batch
  {
    Batch(provider, insurer, batchDate, ident, 0, 0, 0.0, false, processingDate)
  }

  /** The entry the scheduler reports for each batch it marks processed. */
  datatype Summary = Summary(id: nat, ident: Identifier, claims: int, amount: int, cost: real)

  function Min(a: int, b: int): int { if a <= b then a else b }
  function Max(a: int, b: int): int { if a >= b then a else b }
}
