/** The object's admission of a poll and the protocol's are one: what the run
    theorems say of admitted polls holds of `Broker.Poll`. */
module BrokerAdmission {
  import opened Basics
  import opened BrokerState
  import opened BrokerObjects
  import R = Rendezvous

  /** For an identified agent of this protocol, the three verdicts agree. */
  lemma AdmissionAgrees(s: R.System, poll: R.Poll, input: PollRequest)
    requires Identified(input.agentId) && input.protocol == 1 && input.authorityEpoch == poll.epoch
    ensures Admission(s.epoch, input) == None <==> R.AdmitPoll(s, poll) == R.Ready
    ensures Admission(s.epoch, input) == Some(StaleAuthority) <==>
            R.AdmitPoll(s, poll) == R.Replied(R.Conflict(s.epoch))
    ensures Admission(s.epoch, input).Some? && Admission(s.epoch, input).value.Rejected? <==>
            R.AdmitPoll(s, poll) == R.Replied(R.Refused)
  {
  }

  /** Nobody else is let in. */
  lemma StrangersAreRejected(epoch: nat, input: PollRequest)
    requires !Identified(input.agentId) || input.protocol != 1
    ensures Admission(epoch, input).Some? && Admission(epoch, input).value.Rejected?
  {
  }
}
