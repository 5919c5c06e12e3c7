/**
 * ProfileDto: the parts of a parsed profile.json that the profile reports read.
 *
 * Every Java reference that the reports test for null, or that may be null in a
 * list, is an Option. Field types follow the way the reports use them (the DTO
 * classes themselves are not part of this model).
 */
module ProfileDto {
  import opened Wrappers

  datatype InputProfile = InputProfile(records: int, batches: int, size: int)

  datatype OperatorProfile = OperatorProfile(
    inputProfile: Option<seq<Option<InputProfile>>>,
    operatorId: int,
    operatorType: int,
    setupNanos: int,
    processNanos: int,
    peakLocalMemoryAllocated: int,
    waitNanos: int)

  datatype Endpoint = Endpoint(address: Option<string>)

  /** One thread of a phase. */
  datatype MinorFragmentProfile = MinorFragmentProfile(
    minorFragmentId: int,
    startTime: int,
    endTime: int,
    operatorProfile: Option<seq<Option<OperatorProfile>>>,
    endpoint: Option<Endpoint>,
    runDuration: int,
    blockedDuration: int,
    blockedOnUpstreamDuration: int,
    blockedOnDownstreamDuration: int,
    blockedOnSharedResourceDuration: int,
    sleepingDuration: int)

  /** One phase. */
  datatype FragmentProfile = FragmentProfile(
    majorFragmentId: int,
    minorFragmentProfile: Option<seq<Option<MinorFragmentProfile>>>)

  /** The operator-type metrics map; its metric definitions are handed on to operator construction. */
  datatype OperatorTypeMetricsMap = OperatorTypeMetricsMap(metricsDef: seq<string>)

  datatype ProfileJSON = ProfileJSON(
    start: int,
    end: int,
    user: Option<string>,
    state: int,
    dremioVersion: Option<string>,
    fragmentProfile: Option<seq<Option<FragmentProfile>>>,
    operatorTypeMetricsMap: Option<OperatorTypeMetricsMap>)

  /** The unchecked exceptions a walk over a profile can raise. */
  datatype Fault =
    | NullPointer                                   // a null list element or a null list that is iterated
    | IndexOutOfBounds(index: int, length: nat)     // Enum.values()[i] with a negative i
}
