/**
 * The diagnostics reporter a plugin uses to publish the errors it found for a
 * file (browser/src/Plugins/Api/Diagnostics.ts). It remembers, per file name,
 * whether the last report it forwarded carried errors, and drops a report that
 * would only repeat "this file has no errors".
 */
module DiagnosticsApi {
  import opened Wrappers
  import opened LanguageTypes

  /** The message type under which reports travel on the plugin channel. */
  const SetErrorsType: string := "set-errors"

  datatype ErrorsPayload = ErrorsPayload(key: string, fileName: string, errors: seq<Diagnostic>)

  /** One message sent on the channel; the second argument of the send, `null` in the source, is not recorded. */
  datatype Message = Message(messageType: string, payload: ErrorsPayload)

  /** The per-file flags; a file missing from the dictionary reads as not flagged. */
  type Flags = map<string, bool>

  predicate Flagged(flags: Flags, fileName: string) {
    fileName in flags && flags[fileName]
  }

  /** What one call to `setErrors` does: the new flags and the messages it sends. */
  datatype ReportStep = ReportStep(flags: Flags, sent: seq<Message>)

  function Report(flags: Flags, key: string, fileName: string, errors: Option<seq<Diagnostic>>): (r: ReportStep)
    // A missing error list is ignored.
    ensures errors.None? ==> r == ReportStep(flags, [])
    // An empty list for a file that was not flagged is ignored.
    ensures errors == Some([]) && !Flagged(flags, fileName) ==> r == ReportStep(flags, [])
    // A non-empty list is never suppressed, and leaves the file flagged.
    ensures errors.Some? && errors.value != [] ==>
              |r.sent| == 1 && Flagged(r.flags, fileName)
    // An empty list for a flagged file is sent once and clears the flag.
    ensures errors == Some([]) && Flagged(flags, fileName) ==>
              |r.sent| == 1 && !Flagged(r.flags, fileName) && fileName in r.flags
    // Every report that is not ignored sends its message and records whether the file now has errors.
    ensures errors.Some? && (errors.value != [] || Flagged(flags, fileName)) ==>
              r.sent == [Message(SetErrorsType, ErrorsPayload(key, fileName, errors.value))] &&
              r.flags == flags[fileName := errors.value != []]
    // Whatever is sent is one "set-errors" message carrying the call's own arguments.
    ensures r.sent == [] || r.sent == [Message(SetErrorsType, ErrorsPayload(key, fileName, errors.value))]
    // Afterwards the file is flagged exactly when it was given errors, or was flagged and nothing was sent.
    ensures Flagged(r.flags, fileName) <==> (r.sent != [] && errors.value != []) || (r.sent == [] && Flagged(flags, fileName))
    // Only the entry for `fileName` may change.
    ensures forall f :: f != fileName ==> (f in r.flags <==> f in flags) && (f in flags ==> r.flags[f] == flags[f])
  {
    if errors.None? then
      ReportStep(flags, [])
    else if |errors.value| == 0 && !Flagged(flags, fileName) then
      ReportStep(flags, [])
    else
      ReportStep(flags[fileName := |errors.value| > 0],
                 [Message(SetErrorsType, ErrorsPayload(key, fileName, errors.value))])
  }

  /** The flag is keyed by the file name alone: the reporting key plays no part in it. */
  lemma FlagsIgnoreKey(flags: Flags, key1: string, key2: string, fileName: string, errors: Option<seq<Diagnostic>>)
    ensures Report(flags, key1, fileName, errors).flags == Report(flags, key2, fileName, errors).flags
    ensures |Report(flags, key1, fileName, errors).sent| == |Report(flags, key2, fileName, errors).sent|
  {
  }

  /** One call to `setErrors`, for replaying a sequence of calls. */
  datatype Call = Call(key: string, fileName: string, errors: Option<seq<Diagnostic>>)

  /** The combined effect of a sequence of calls made in order. */
  function ReportAll(flags: Flags, calls: seq<Call>): ReportStep
    decreases |calls|
  {
    if calls == [] then
      ReportStep(flags, [])
    else
      var first := Report(flags, calls[0].key, calls[0].fileName, calls[0].errors);
      var rest := ReportAll(first.flags, calls[1..]);
      ReportStep(rest.flags, first.sent + rest.sent)
  }

  predicate AllClear(calls: seq<Call>, fileName: string) {
    forall i :: 0 <= i < |calls| ==> calls[i].fileName == fileName && calls[i].errors == Some([])
  }

  /** Empty reports for a file that is not flagged send nothing, however many there are. */
  lemma {:induction false} ClearsOfUnflaggedFileSendNothing(flags: Flags, fileName: string, calls: seq<Call>)
    requires AllClear(calls, fileName)
    requires !Flagged(flags, fileName)
    ensures ReportAll(flags, calls).sent == []
    ensures !Flagged(ReportAll(flags, calls).flags, fileName)
    decreases |calls|
  {
    if calls != [] {
      assert calls[0].fileName == fileName && calls[0].errors == Some([]);
      var first := Report(flags, calls[0].key, calls[0].fileName, calls[0].errors);
      assert first == ReportStep(flags, []);
      assert AllClear(calls[1..], fileName) by {
        forall i | 0 <= i < |calls[1..]|
          ensures calls[1..][i].fileName == fileName && calls[1..][i].errors == Some([])
        {
          assert calls[1..][i] == calls[i + 1];
        }
      }
      ClearsOfUnflaggedFileSendNothing(flags, fileName, calls[1..]);
    }
  }

  /**
   * A run of empty reports for one file sends at most one message: the first
   * one, and only when the file was flagged. The steady state is idempotent.
   */
  lemma {:induction false} RepeatedClearsSendAtMostOnce(flags: Flags, fileName: string, calls: seq<Call>)
    requires calls != []
    requires AllClear(calls, fileName)
    ensures ReportAll(flags, calls).sent ==
              if Flagged(flags, fileName)
              then [Message(SetErrorsType, ErrorsPayload(calls[0].key, fileName, []))]
              else []
    ensures !Flagged(ReportAll(flags, calls).flags, fileName)
  {
    assert calls[0].fileName == fileName && calls[0].errors == Some([]);
    var first := Report(flags, calls[0].key, calls[0].fileName, calls[0].errors);
    assert !Flagged(first.flags, fileName);
    assert AllClear(calls[1..], fileName) by {
      forall i | 0 <= i < |calls[1..]|
        ensures calls[1..][i].fileName == fileName && calls[1..][i].errors == Some([])
      {
        assert calls[1..][i] == calls[i + 1];
      }
    }
    ClearsOfUnflaggedFileSendNothing(first.flags, fileName, calls[1..]);
  }

  /**
   * Errors followed by two clears for the same file: the errors and the first
   * clear are sent, the second clear is not.
   */
  lemma SetThenClearTwice(flags: Flags, k1: string, k2: string, k3: string, fileName: string, errors: seq<Diagnostic>)
    requires errors != []
    ensures ReportAll(flags, [Call(k1, fileName, Some(errors)), Call(k2, fileName, Some([])), Call(k3, fileName, Some([]))]).sent ==
              [Message(SetErrorsType, ErrorsPayload(k1, fileName, errors)),
               Message(SetErrorsType, ErrorsPayload(k2, fileName, []))]
  {
    var calls := [Call(k1, fileName, Some(errors)), Call(k2, fileName, Some([])), Call(k3, fileName, Some([]))];
    var first := Report(flags, k1, fileName, Some(errors));
    assert Flagged(first.flags, fileName);
    assert calls[1..] == [Call(k2, fileName, Some([])), Call(k3, fileName, Some([]))];
    RepeatedClearsSendAtMostOnce(first.flags, fileName, calls[1..]);
  }

  /** Whether the most recent message about `fileName` in `sent` reported errors (false if there is none). */
  function LastReportHadErrors(sent: seq<Message>, fileName: string): bool
    decreases |sent|
  {
    if sent == [] then false
    else if sent[|sent| - 1].payload.fileName == fileName then sent[|sent| - 1].payload.errors != []
    else LastReportHadErrors(sent[..|sent| - 1], fileName)
  }

  /** The flags record, for every file, what the channel last heard about it. */
  ghost predicate Consistent(flags: Flags, sent: seq<Message>) {
    forall f :: Flagged(flags, f) == LastReportHadErrors(sent, f)
  }

  /** No message clears a file whose previous report already said it had no errors. */
  ghost predicate NoRedundantClear(sent: seq<Message>) {
    forall i :: 0 <= i < |sent| && sent[i].payload.errors == [] ==> LastReportHadErrors(sent[..i], sent[i].payload.fileName)
  }

  /** A report keeps the flags in step with the channel and never sends a redundant clear. */
  lemma ReportPreservesInvariant(flags: Flags, sent: seq<Message>, key: string, fileName: string, errors: Option<seq<Diagnostic>>)
    requires Consistent(flags, sent) && NoRedundantClear(sent)
    ensures Consistent(Report(flags, key, fileName, errors).flags, sent + Report(flags, key, fileName, errors).sent)
    ensures NoRedundantClear(sent + Report(flags, key, fileName, errors).sent)
  {
    var r := Report(flags, key, fileName, errors);
    if r.sent != [] {
      var sent' := sent + r.sent;
      assert sent'[..|sent'| - 1] == sent;
      forall f ensures Flagged(r.flags, f) == LastReportHadErrors(sent', f) {
        assert Flagged(flags, f) == LastReportHadErrors(sent, f);
      }
      forall i | 0 <= i < |sent'| && sent'[i].payload.errors == []
        ensures LastReportHadErrors(sent'[..i], sent'[i].payload.fileName)
      {
        if i < |sent| {
          assert sent'[..i] == sent[..i];
        } else {
          assert sent'[..i] == sent;
          assert Flagged(flags, fileName);
        }
      }
    } else {
      assert sent + r.sent == sent;
    }
  }

  class Diagnostics {
    var filesThatHaveErrors: Flags
    /** Every message sent on the plugin channel, oldest first. */
    var sent: seq<Message>

    ghost predicate Valid()
      reads this
    {
      Consistent(filesThatHaveErrors, sent) && NoRedundantClear(sent)
    }

    constructor()
      ensures Valid()
      ensures filesThatHaveErrors == map[] && sent == []
    {
      filesThatHaveErrors := map[];
      sent := [];
    }

    method SetErrors(key: string, fileName: string, errors: Option<seq<Diagnostic>>)
      requires Valid()
      modifies this
      ensures Valid()
      ensures filesThatHaveErrors == Report(old(filesThatHaveErrors), key, fileName, errors).flags
      ensures sent == old(sent) + Report(old(filesThatHaveErrors), key, fileName, errors).sent
    {
      ReportPreservesInvariant(filesThatHaveErrors, sent, key, fileName, errors);
      if errors.None? {
        return;
      }
      if |errors.value| == 0 && !(fileName in filesThatHaveErrors && filesThatHaveErrors[fileName]) {
        return;
      }
      filesThatHaveErrors := filesThatHaveErrors[fileName := |errors.value| > 0];
      sent := sent + [Message(SetErrorsType, ErrorsPayload(key, fileName, errors.value))];
    }
  }
}
