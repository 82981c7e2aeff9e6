/**
  Report messages and the severity tally the checker repeats for the
  GetCapabilities report, for each layer report and for the CF section.
 */
module Messages {

  /** One `{category, documentationLink, message, severity}` record of a report. */
  datatype Message = Message(category: string, documentationLink: string, message: string, severity: string)

  const ERROR := "ERROR"
  const WARNING := "WARNING"
  const INFO := "INFO"

  /** The three severities the tally recognises; any other severity string is ignored. */
  predicate IsKnownSeverity(severity: string) {
    severity == ERROR || severity == WARNING || severity == INFO
  }

  /** The `nerrors`, `nwarnings` and `ninfo` fields of a report. */
  datatype Counts = Counts(nerrors: nat, nwarnings: nat, ninfo: nat) {
    function Plus(other: Counts): Counts {
      Counts(nerrors + other.nerrors, nwarnings + other.nwarnings, ninfo + other.ninfo)
    }

    function Total(): nat {
      nerrors + nwarnings + ninfo
    }
  }

  function NoCounts(): Counts {
    Counts(0, 0, 0)
  }

  /** The number of messages whose severity is exactly `severity`. */
  function CountSeverity(msgs: seq<Message>, severity: string): nat {
    if msgs == [] then 0
    else CountSeverity(msgs[..|msgs| - 1], severity) + (if msgs[|msgs| - 1].severity == severity then 1 else 0)
  }

  /** The counts a tally of `msgs` arrives at. */
  function SeverityCounts(msgs: seq<Message>): Counts {
    Counts(CountSeverity(msgs, ERROR), CountSeverity(msgs, WARNING), CountSeverity(msgs, INFO))
  }

  /** The positions of the messages of one severity. */
  function IndicesWith(msgs: seq<Message>, severity: string): set<nat> {
    set i: nat | i < |msgs| && msgs[i].severity == severity
  }

  /** The count of a severity is the number of positions holding a message of exactly that severity. */
  lemma {:induction false} CountSeverityIsIndexCount(msgs: seq<Message>, severity: string)
    ensures CountSeverity(msgs, severity) == |IndicesWith(msgs, severity)|
  {
    if msgs != [] {
      var n := |msgs| - 1;
      var front := msgs[..n];
      CountSeverityIsIndexCount(front, severity);
      assert IndicesWith(front, severity) == set i: nat | i < n && msgs[i].severity == severity;
      if msgs[n].severity == severity {
        assert IndicesWith(msgs, severity) == IndicesWith(front, severity) + {n};
      } else {
        assert IndicesWith(msgs, severity) == IndicesWith(front, severity);
      }
    }
  }

  /** Counting distributes over concatenation. */
  lemma {:induction false} CountSeverityAppend(a: seq<Message>, b: seq<Message>, severity: string)
    ensures CountSeverity(a + b, severity) == CountSeverity(a, severity) + CountSeverity(b, severity)
  {
    if b != [] {
      var n := |b| - 1;
      assert (a + b)[..|a + b| - 1] == a + b[..n];
      CountSeverityAppend(a, b[..n], severity);
    } else {
      assert a + b == a;
    }
  }

  /** Tallying `msgs + more` is tallying `msgs` and then `more`. */
  lemma SeverityCountsAppend(msgs: seq<Message>, more: seq<Message>)
    ensures SeverityCounts(msgs + more) == SeverityCounts(msgs).Plus(SeverityCounts(more))
  {
    CountSeverityAppend(msgs, more, ERROR);
    CountSeverityAppend(msgs, more, WARNING);
    CountSeverityAppend(msgs, more, INFO);
  }

  /**
    Every message is counted at most once, so the three counts never exceed the
    number of messages, and they reach it exactly when no message has another severity.
   */
  lemma {:induction false} TallyBound(msgs: seq<Message>)
    ensures SeverityCounts(msgs).Total() <= |msgs|
    ensures SeverityCounts(msgs).Total() == |msgs| <==> forall m | m in msgs :: IsKnownSeverity(m.severity)
  {
    if msgs != [] {
      var n := |msgs| - 1;
      var front := msgs[..n];
      TallyBound(front);
      assert msgs == front + [msgs[n]];
      if forall m | m in msgs :: IsKnownSeverity(m.severity) {
        assert forall m | m in front :: m in msgs;
        assert msgs[n] in msgs;
      } else if IsKnownSeverity(msgs[n].severity) {
        var m :| m in msgs && !IsKnownSeverity(m.severity);
        assert m in front;
      }
    }
  }

  /**
    The tally loop: starting from the counts already in the report, bump the
    matching counter once per message; messages of any other severity are skipped.
   */
  method Tally(start: Counts, msgs: seq<Message>) returns (counts: Counts)
    ensures counts == start.Plus(SeverityCounts(msgs))
  {
    counts := start;
    for i := 0 to |msgs|
      invariant counts == start.Plus(SeverityCounts(msgs[..i]))
    {
      assert msgs[..i + 1][..i] == msgs[..i];
      var message := msgs[i];
      if message.severity == ERROR {
        counts := counts.(nerrors := counts.nerrors + 1);
      } else if message.severity == WARNING {
        counts := counts.(nwarnings := counts.nwarnings + 1);
      } else if message.severity == INFO {
        counts := counts.(ninfo := counts.ninfo + 1);
      }
    }
    assert msgs[..|msgs|] == msgs;
  }
}
