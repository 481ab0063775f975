/** The two transition tables of the airlock and their step functions. */
module Transitions {
  import opened Wrappers

  datatype TransactionState =
    | TxReceived | TxConfirmationPending | TxConfirmed | TxDeclined | TxExpired
    | TxReversalRequested | TxReversed | TxClearingReceived | TxSettled | TxException

  datatype ProvisioningState =
    | ProvRequested | ProvRiskScored | ProvTrustedDeviceChallenge | ProvApproved
    | ProvTokenActiveCapped | ProvTokenActiveFull | ProvDeclined | ProvExpired

  function TransactionSuccessors(s: TransactionState): set<TransactionState> {
    match s
    case TxReceived => {TxConfirmationPending, TxDeclined}
    case TxConfirmationPending => {TxConfirmed, TxExpired, TxDeclined}
    case TxConfirmed => {TxClearingReceived, TxReversalRequested}
    case TxDeclined => {}
    case TxExpired => {TxReversalRequested, TxClearingReceived}
    case TxReversalRequested => {TxReversed, TxClearingReceived, TxException}
    case TxReversed => {TxClearingReceived}
    case TxClearingReceived => {TxSettled, TxException}
    case TxSettled => {}
    case TxException => {}
  }

  function ProvisioningSuccessors(s: ProvisioningState): set<ProvisioningState> {
    match s
    case ProvRequested => {ProvRiskScored, ProvDeclined}
    case ProvRiskScored => {ProvTrustedDeviceChallenge, ProvApproved, ProvDeclined}
    case ProvTrustedDeviceChallenge => {ProvApproved, ProvDeclined, ProvExpired}
    case ProvApproved => {ProvTokenActiveCapped, ProvTokenActiveFull}
    case ProvTokenActiveCapped => {ProvTokenActiveFull, ProvDeclined}
    case ProvTokenActiveFull => {}
    case ProvDeclined => {}
    case ProvExpired => {}
  }

  function TransitionTransaction(current: TransactionState, next: TransactionState): (r: Option<TransactionState>)
    ensures r.Some? ==> r.value == next && Rank(next) < Rank(current)
  {
    if next in TransactionSuccessors(current) then Some(next) else None
  }

  function TransitionProvisioning(current: ProvisioningState, next: ProvisioningState): (r: Option<ProvisioningState>)
    ensures r.Some? ==> r.value == next && ProvisioningRank(next) < ProvisioningRank(current)
  {
    if next in ProvisioningSuccessors(current) then Some(next) else None
  }

  /** Every permitted transition lowers the rank, so no history visits a state twice. */
  function Rank(s: TransactionState): nat {
    match s
    case TxReceived => 6
    case TxConfirmationPending => 5
    case TxConfirmed => 4
    case TxExpired => 4
    case TxReversalRequested => 3
    case TxReversed => 2
    case TxClearingReceived => 1
    case TxSettled => 0
    case TxException => 0
    case TxDeclined => 0
  }

  function ProvisioningRank(s: ProvisioningState): nat {
    match s
    case ProvRequested => 6
    case ProvRiskScored => 5
    case ProvTrustedDeviceChallenge => 4
    case ProvApproved => 3
    case ProvTokenActiveCapped => 2
    case ProvTokenActiveFull => 1
    case ProvDeclined => 0
    case ProvExpired => 0
  }
}
