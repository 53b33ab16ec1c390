/** What became of the requests one send handed to HTTP, and what the caller is told about it. */
module Submissions {

  /** How a failed request is reported: certainly never executed, or possibly executed. */
  datatype Submission = NotSent | ExecutionUnknown

  /** One flag per submission, in order: whether the server processed it. */
  type Log = seq<bool>

  function Executions(log: Log): nat {
    if log == [] then 0 else (if log[0] then 1 else 0) + Executions(log[1..])
  }

  lemma ExecutionsOfTwo(first: bool, second: bool)
    ensures Executions([first]) == if first then 1 else 0
    ensures Executions([first, second]) == Executions([first]) + Executions([second])
  {
    assert [first, second][1..] == [second];
  }

  /** The report is true of what was submitted. */
  predicate Truthful(submission: Submission, log: Log) {
    match submission
    case NotSent => Executions(log) == 0
    case ExecutionUnknown => log != []
  }

  /** At most two submissions, at most one of them executed. */
  predicate SentOnce(log: Log) {
    |log| <= 2 && Executions(log) <= 1
  }
}
