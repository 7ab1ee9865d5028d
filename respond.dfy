/**
 * The respondent view (component `SendResponses`): it shows the current
 * question with one answer field, submits the first non-blank answer as a
 * word, and optionally keeps a newest-first history of the participant's own
 * answers, capped at fifty entries.
 *
 * The channel's `emit` is the `emitted` result of a method; `Date.now()` is the
 * parameter `now`; the half-second pause after a submit ends with a call of
 * `SubmitSettled`; the stored settings and history are constructor parameters.
 */
module Respond {
  import opened Wrappers
  import opened Text

  /** `responses.flat()` for the nested answer lists. */
  function Flatten(responses: seq<seq<string>>): (flat: seq<string>)
    ensures |responses| == 1 ==> flat == responses[0]
    decreases |responses|
  {
    if responses == [] then [] else responses[0] + Flatten(responses[1..])
  }

  /** An answer is in the flattened list exactly when it is in one of the inner lists. */
  lemma {:induction false} FlattenMembers(responses: seq<seq<string>>)
    ensures forall a :: a in Flatten(responses) <==> exists r :: r in responses && a in r
    decreases |responses|
  {
    if responses != [] {
      FlattenMembers(responses[1..]);
      assert forall r :: r in responses <==> r == responses[0] || r in responses[1..];
    }
  }

  /** `answers.find((answer) => answer.trim())`: the first answer that is not blank, untrimmed. */
  function FirstNonBlank(answers: seq<string>): (found: Option<string>)
    ensures found.Some? ==> found.value in answers && !IsBlank(found.value)
    decreases |answers|
  {
    if answers == [] then None
    else if !IsBlank(answers[0]) then Some(answers[0])
    else FirstNonBlank(answers[1..])
  }

  /**
   * `find` finds nothing exactly when every answer is blank, and what it finds
   * is the first answer that is not blank.
   */
  lemma {:induction false} FirstNonBlankIsFirst(answers: seq<string>)
    ensures FirstNonBlank(answers).None? <==> forall a :: a in answers ==> IsBlank(a)
    ensures FirstNonBlank(answers).Some? ==>
      exists i :: 0 <= i < |answers| && answers[i] == FirstNonBlank(answers).value && !IsBlank(answers[i])
                  && forall j :: 0 <= j < i ==> IsBlank(answers[j])
    decreases |answers|
  {
    if answers != [] && IsBlank(answers[0]) {
      var rest := FirstNonBlank(answers[1..]);
      FirstNonBlankIsFirst(answers[1..]);
      assert forall a :: a in answers ==> a == answers[0] || a in answers[1..];
      if rest.Some? {
        var i :| 0 <= i < |answers[1..]| && answers[1..][i] == rest.value && !IsBlank(answers[1..][i])
                 && forall j :: 0 <= j < i ==> IsBlank(answers[1..][j]);
        assert answers[i + 1] == rest.value;
        forall j | 0 <= j < i + 1 ensures IsBlank(answers[j]) {
          if j > 0 {
            assert answers[j] == answers[1..][j - 1];
          }
        }
      }
    } else if answers != [] {
      assert answers[0] in answers;
    }
  }

  /** An answer `find` returns over the flattened lists is the answer of one of the questions. */
  lemma FoundComesFromResponses(responses: seq<seq<string>>)
    requires FirstNonBlank(Flatten(responses)).Some?
    ensures exists r :: r in responses && FirstNonBlank(Flatten(responses)).value in r
  {
    FlattenMembers(responses);
  }

  /** One entry of the local history. */
  datatype ResponseRecord = ResponseRecord(id: int, question: string, response: string, timestamp: int)

  const HistoryLimit: nat := 50

  /** `[record, ...history.slice(0, 49)]`: the new record first, then at most 49 of the older ones in their order. */
  function PushCapped(history: seq<ResponseRecord>, record: ResponseRecord): (r: seq<ResponseRecord>)
    ensures |r| == if |history| < HistoryLimit then |history| + 1 else HistoryLimit
    ensures r[0] == record && r[1..] == history[..|r| - 1]
  {
    [record] + history[..if |history| < HistoryLimit - 1 then |history| else HistoryLimit - 1]
  }

  /** The history after each record in turn was pushed. */
  function PushAll(history: seq<ResponseRecord>, records: seq<ResponseRecord>): seq<ResponseRecord>
    decreases |records|
  {
    if records == [] then history else PushAll(PushCapped(history, records[0]), records[1..])
  }

  /**
   * However many answers are pushed, the history never holds more than fifty
   * entries once it held at most fifty, and it starts with the latest answers,
   * newest first.
   */
  lemma {:induction false} PushAllNewestFirst(history: seq<ResponseRecord>, records: seq<ResponseRecord>)
    requires |history| <= HistoryLimit
    ensures |PushAll(history, records)| <= HistoryLimit
    ensures |records| <= HistoryLimit ==>
      |PushAll(history, records)| >= |records| &&
      forall i :: 0 <= i < |records| ==> PushAll(history, records)[i] == records[|records| - 1 - i]
    decreases |records|
  {
    if records != [] {
      var h1 := PushCapped(history, records[0]);
      var rest := records[1..];
      PushAllNewestFirst(h1, rest);
      if |records| <= HistoryLimit {
        PushAllShifts(h1, rest, 0);
        var out := PushAll(history, records);
        forall i | 0 <= i < |records| ensures out[i] == records[|records| - 1 - i] {
          if i < |rest| {
            assert records[|records| - 1 - i] == rest[|rest| - 1 - i];
          } else {
            assert out[|rest|] == h1[0];
          }
        }
      }
    }
  }

  /** Each push moves the older entries one place back, until they fall off the end. */
  lemma {:induction false} PushAllShifts(history: seq<ResponseRecord>, records: seq<ResponseRecord>, j: nat)
    requires j < |history| && |records| + j < HistoryLimit
    ensures |PushAll(history, records)| > |records| + j && PushAll(history, records)[|records| + j] == history[j]
    decreases |records|
  {
    if records != [] {
      var h1 := PushCapped(history, records[0]);
      assert h1[j + 1] == history[j];
      PushAllShifts(h1, records[1..], j + 1);
    }
  }

  /** The answer field accepts at most this many characters (`maxLength`). */
  const MaxAnswerLength: nat := 100

  /** The state of the respondent view. */
  class ResponsePanel {
    /** The current question, or none before the first one arrives. */
    var questions: seq<string>
    /** One list of answers per question; each holds the text of its input field. */
    var responses: seq<seq<string>>
    var isSubmitting: bool
    var submitted: bool
    var saveLocally: bool
    /** The local history, newest first. */
    var history: seq<ResponseRecord>
    /** Submits whose half-second pause has not ended yet. */
    var pendingSettles: nat

    /**
     * At most one question, one single-field answer list per question holding
     * at most 100 characters, and a pending pause only after a question arrived.
     */
    ghost predicate Valid()
      reads this
    {
      && |questions| <= 1
      && |responses| == |questions|
      && (|responses| == 1 ==> |responses[0]| == 1 && |responses[0][0]| <= MaxAnswerLength)
      && (pendingSettles > 0 ==> |questions| == 1)
    }

    constructor (saveLocally: bool, history: seq<ResponseRecord>)
      ensures Valid()
      ensures questions == [] && responses == [] && !isSubmitting && !submitted
      ensures this.saveLocally == saveLocally && this.history == history && pendingSettles == 0
    {
      questions, responses, isSubmitting, submitted := [], [], false, false;
      this.saveLocally, this.history, pendingSettles := saveLocally, history, 0;
    }

    /** A "question" event: the question replaces any previous one, the answer field is empty and the view is no longer marked submitted. */
    method OnQuestion(question: string)
      requires Valid()
      modifies this`questions, this`responses, this`submitted
      ensures Valid()
      ensures questions == [question] && responses == [[""]] && !submitted
    {
      questions := [question];
      responses := [[""]];
      submitted := false;
    }

    /**
     * `handleChange`: the field of question `index` holds `value`; every other
     * field is unchanged. The field never delivers more than 100 characters.
     */
    method HandleChange(index: nat, value: string)
      requires Valid() && index < |questions| && |value| <= MaxAnswerLength
      modifies this`responses
      ensures Valid()
      ensures |responses| == |old(responses)| && responses[index] == [value] && responses[index][0] == value
      ensures forall j :: 0 <= j < |responses| && j != index ==> responses[j] == old(responses[j])
    {
      responses := responses[index := responses[index][0 := value]];
    }

    /** The submit button is disabled while a submit settles, before any question, after a submit, or with only blank answers. */
    function SubmitDisabled(): (disabled: bool)
      reads this
      ensures disabled <==> isSubmitting || |questions| == 0 || submitted || forall a :: a in Flatten(responses) ==> IsBlank(a)
    {
      FirstNonBlankIsFirst(Flatten(responses));
      isSubmitting || |questions| == 0 || submitted || FirstNonBlank(Flatten(responses)).None?
    }

    /**
     * `handleSubmit` up to its pause: with only blank answers nothing changes;
     * otherwise the first non-blank answer is emitted as typed, the view is
     * marked submitted, and with local saving on a record of it is pushed on
     * the capped history.
     */
    method HandleSubmit(now: int) returns (emitted: Option<string>)
      requires Valid()
      modifies this`isSubmitting, this`submitted, this`history, this`pendingSettles
      ensures Valid()
      ensures emitted == FirstNonBlank(Flatten(old(responses)))
      ensures emitted.None? ==> unchanged(this)
      ensures !old(SubmitDisabled()) ==> emitted.Some?
      ensures emitted.Some? ==>
        && emitted.value in Flatten(responses) && !IsBlank(emitted.value) && |emitted.value| <= MaxAnswerLength
        && isSubmitting && submitted && pendingSettles == old(pendingSettles) + 1
        && |questions| == 1
        && history == if saveLocally then PushCapped(old(history), ResponseRecord(now, questions[0], emitted.value, now))
                      else old(history)
    {
      var first := FirstNonBlank(Flatten(responses));
      if first.None? {
        return None;
      }
      FoundComesFromResponses(responses);
      assert |responses| == 1 && responses[0] == [responses[0][0]];
      assert responses == [[responses[0][0]]];
      isSubmitting := true;
      emitted := first;
      submitted := true;
      if saveLocally {
        history := PushCapped(history, ResponseRecord(now, questions[0], first.value, now));
      }
      pendingSettles := pendingSettles + 1;
    }

    /** The end of the pause after a submit: the answer field is emptied and submitting is over. */
    method SubmitSettled()
      requires Valid() && pendingSettles > 0
      modifies this`responses, this`isSubmitting, this`pendingSettles
      ensures Valid()
      ensures responses == [[""]] && !isSubmitting && pendingSettles == old(pendingSettles) - 1
    {
      responses := [[""]];
      isSubmitting := false;
      pendingSettles := pendingSettles - 1;
    }

    /** `clearSavedResponses`: the history is empty. */
    method ClearSavedResponses()
      modifies this`history
      ensures history == []
    {
      history := [];
    }

    method ToggleSaveLocally()
      modifies this`saveLocally
      ensures saveLocally == !old(saveLocally)
    {
      saveLocally := !saveLocally;
    }
  }
}
