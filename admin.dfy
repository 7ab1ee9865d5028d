/**
 * The admin panel (component `AdminPanel`): the admin types a question and
 * either sends it at once or saves it for later. Sent questions are kept in
 * the order they were sent; saved questions wait in a queue that can be sent
 * one by one or drained automatically, one question per timer tick.
 *
 * The channel's `emit` is the `emitted` result of a method; the clock
 * (`Date.now()`, which also serves as the id of a saved question) is the
 * parameter `now`; the confirmation dialog's answer is a parameter; the
 * interval timer is the environment calling `AutoSendTick`.
 */
module Admin {
  import opened Wrappers
  import opened Text

  datatype SentQuestion = SentQuestion(text: string, timestamp: int)
  datatype SavedQuestion = SavedQuestion(id: int, text: string, timestamp: int)

  /** `list.filter((_, i) => i !== index)` */
  function WithoutIndex<T>(s: seq<T>, index: int): (r: seq<T>)
    ensures |r| <= |s|
    decreases |s|
  {
    if s == [] then []
    else (if index == 0 then [] else [s[0]]) + WithoutIndex(s[1..], index - 1)
  }

  /** An index outside the list filters nothing out. */
  lemma {:induction false} WithoutIndexOutside<T>(s: seq<T>, index: int)
    requires !(0 <= index < |s|)
    ensures WithoutIndex(s, index) == s
    decreases |s|
  {
    if s != [] {
      WithoutIndexOutside(s[1..], index - 1);
      assert [s[0]] + s[1..] == s;
    }
  }

  /** An index inside the list drops exactly the element there and keeps the rest in order. */
  lemma {:induction false} WithoutIndexInside<T>(s: seq<T>, index: int)
    requires 0 <= index < |s|
    ensures WithoutIndex(s, index) == s[..index] + s[index + 1..]
    decreases |s|
  {
    var tail := s[1..];
    if index == 0 {
      WithoutIndexOutside(tail, -1);
      assert WithoutIndex(s, index) == tail;
      assert s[..index] + s[index + 1..] == tail;
    } else {
      WithoutIndexInside(tail, index - 1);
      calc {
        WithoutIndex(s, index);
        [s[0]] + WithoutIndex(tail, index - 1);
        [s[0]] + (tail[..index - 1] + tail[index..]);
        ([s[0]] + tail[..index - 1]) + tail[index..];
        { assert [s[0]] + tail[..index - 1] == s[..index];
          assert tail[index..] == s[index + 1..]; }
        s[..index] + s[index + 1..];
      }
    }
  }

  /** Filtering by position drops exactly the element at `index` and keeps the rest in order; other indices change nothing. */
  lemma WithoutIndexSplice<T>(s: seq<T>, index: int)
    ensures 0 <= index < |s| ==> WithoutIndex(s, index) == s[..index] + s[index + 1..]
    ensures !(0 <= index < |s|) ==> WithoutIndex(s, index) == s
  {
    if 0 <= index < |s| {
      WithoutIndexInside(s, index);
    } else {
      WithoutIndexOutside(s, index);
    }
  }

  /** `saved.filter(q => q.id !== id)` */
  function WithoutId(saved: seq<SavedQuestion>, id: int): (r: seq<SavedQuestion>)
    ensures |r| <= |saved|
    decreases |saved|
  {
    if saved == [] then []
    else (if saved[0].id != id then [saved[0]] else []) + WithoutId(saved[1..], id)
  }

  /** Filtering by id keeps exactly the entries with another id. */
  lemma {:induction false} WithoutIdMembers(saved: seq<SavedQuestion>, id: int)
    ensures forall q :: q in WithoutId(saved, id) <==> q in saved && q.id != id
    decreases |saved|
  {
    if saved != [] {
      WithoutIdMembers(saved[1..], id);
      assert forall q :: q in saved <==> q == saved[0] || q in saved[1..];
    }
  }

  /** Filtering by id works piecewise, so the entries it keeps stay in their order. */
  lemma {:induction false} WithoutIdConcat(a: seq<SavedQuestion>, b: seq<SavedQuestion>, id: int)
    ensures WithoutId(a + b, id) == WithoutId(a, id) + WithoutId(b, id)
    decreases |a|
  {
    if a == [] {
      assert a + b == b;
    } else {
      var head := if a[0].id != id then [a[0]] else [];
      assert (a + b)[0] == a[0] && (a + b)[1..] == a[1..] + b;
      assert WithoutId(a + b, id) == head + WithoutId(a[1..] + b, id);
      WithoutIdConcat(a[1..], b, id);
      assert WithoutId(a, id) == head + WithoutId(a[1..], id);
    }
  }

  /** Removing an id nobody has changes nothing. */
  lemma {:induction false} WithoutAbsentId(saved: seq<SavedQuestion>, id: int)
    requires forall q :: q in saved ==> q.id != id
    ensures WithoutId(saved, id) == saved
    decreases |saved|
  {
    if saved != [] {
      WithoutAbsentId(saved[1..], id);
    }
  }

  /** What `parseInt` made of the interval field. */
  datatype Parsed = NaN | Number(value: int)

  /** `Math.max(5, parseInt(value) || 30)`: NaN and 0 fall back to 30, and nothing below 5 is accepted. */
  function IntervalFromInput(parsed: Parsed): (seconds: int)
    ensures seconds >= 5
    ensures parsed == NaN || parsed == Number(0) ==> seconds == 30
    ensures parsed.Number? && parsed.value != 0 ==> seconds == (if parsed.value >= 5 then parsed.value else 5)
  {
    var n := if parsed.NaN? || parsed.value == 0 then 30 else parsed.value;
    if n >= 5 then n else 5
  }

  /** The field shows the accepted interval; reading it back accepts the same interval again. */
  lemma IntervalStable(parsed: Parsed)
    ensures IntervalFromInput(Number(IntervalFromInput(parsed))) == IntervalFromInput(parsed)
  {
  }

  /** One auto-send tick on the two lists: move the head of the saved queue to the end of the sent list. */
  function TickStep(sent: seq<SentQuestion>, saved: seq<SavedQuestion>, now: int): (r: (seq<SentQuestion>, seq<SavedQuestion>))
    ensures |r.0| + |r.1| == |sent| + |saved|
    ensures |sent| <= |r.0| && r.0[..|sent|] == sent
    ensures saved == [] ==> r == (sent, saved)
    ensures saved != [] ==> r.1 == saved[1..] && r.0[|sent|].text == saved[0].text
  {
    if saved == [] then (sent, saved) else (sent + [SentQuestion(saved[0].text, now)], saved[1..])
  }

  /** The lists after one tick at each of the given times, in order. */
  function AfterTicks(sent: seq<SentQuestion>, saved: seq<SavedQuestion>, times: seq<int>): (r: (seq<SentQuestion>, seq<SavedQuestion>))
    decreases |times|
  {
    if times == [] then (sent, saved)
    else
      var next := TickStep(sent, saved, times[0]);
      AfterTicks(next.0, next.1, times[1..])
  }

  /**
   * Ticks send the saved questions first in, first out: after k ticks (k no
   * more than the queue) the first k saved questions have been appended to the
   * sent list in queue order and the queue is what was behind them.
   */
  lemma {:induction false} TicksAreFifo(sent: seq<SentQuestion>, saved: seq<SavedQuestion>, times: seq<int>)
    requires |times| <= |saved|
    ensures AfterTicks(sent, saved, times).1 == saved[|times|..]
    ensures var out := AfterTicks(sent, saved, times).0;
      && |out| == |sent| + |times| && out[..|sent|] == sent
      && forall i :: 0 <= i < |times| ==> out[|sent| + i] == SentQuestion(saved[i].text, times[i])
    decreases |times|
  {
    if times != [] {
      var sent1 := sent + [SentQuestion(saved[0].text, times[0])];
      TicksAreFifo(sent1, saved[1..], times[1..]);
      var out := AfterTicks(sent, saved, times).0;
      assert out == AfterTicks(sent1, saved[1..], times[1..]).0;
      assert out[..|sent1|] == sent1;
      assert out[..|sent|] == sent1[..|sent|];
      forall i | 0 <= i < |times| ensures out[|sent| + i] == SentQuestion(saved[i].text, times[i]) {
        if i > 0 {
          assert out[|sent1| + (i - 1)] == SentQuestion(saved[1..][i - 1].text, times[1..][i - 1]);
        } else {
          assert out[|sent|] == sent1[|sent|];
        }
      }
    }
  }

  /** The state of the admin panel. */
  class AdminPanel {
    /** The question being typed. */
    var input: string
    var sent: seq<SentQuestion>
    var saved: seq<SavedQuestion>
    var isSubmitting: bool
    var autoSendEnabled: bool
    /** Seconds between two auto-send ticks. */
    var sendInterval: int
    /** Whether an interval timer is scheduled, and its period. */
    var timerRunning: bool
    var timerPeriodMs: int
    /** Whether the panel holds a timer id (it keeps it after the tick cancelled its own timer). */
    var hasIntervalId: bool

    /**
     * Saved questions are trimmed and non-blank; the interval is at least five
     * seconds; auto-send is on exactly while a timer runs, and the panel holds
     * the id of a running timer.
     */
    ghost predicate Valid()
      reads this
    {
      && (forall q :: q in saved ==> q.text != "" && Trim(q.text) == q.text)
      && sendInterval >= 5
      && (autoSendEnabled <==> timerRunning)
      && (timerRunning ==> hasIntervalId && timerPeriodMs >= 5000)
    }

    constructor ()
      ensures Valid()
      ensures input == "" && sent == [] && saved == [] && !isSubmitting
      ensures !autoSendEnabled && sendInterval == 30 && !timerRunning && !hasIntervalId
    {
      input, sent, saved, isSubmitting := "", [], [], false;
      autoSendEnabled, sendInterval, timerRunning, timerPeriodMs, hasIntervalId := false, 30, false, 0, false;
    }

    /** The "Send Now" button is disabled while a send settles or when the input is blank. */
    function SendDisabled(): (disabled: bool)
      reads this`isSubmitting, this`input
      ensures disabled <==> isSubmitting || Trim(input) == ""
    {
      BlankIffTrimEmpty(input);
      isSubmitting || IsBlank(input)
    }

    /** The "Save for Later" button is disabled when the input is blank. */
    function SaveDisabled(): (disabled: bool)
      reads this`input
      ensures disabled <==> Trim(input) == ""
    {
      BlankIffTrimEmpty(input);
      IsBlank(input)
    }

    /**
     * `addQuestion`: a blank input does nothing; otherwise the text as typed
     * (not trimmed) is emitted and appended to the sent list, and the input is
     * cleared.
     */
    method AddQuestion(now: int) returns (emitted: Option<string>)
      requires Valid()
      modifies this`sent, this`input, this`isSubmitting
      ensures Valid()
      ensures IsBlank(old(input)) ==> emitted == None && unchanged(this)
      ensures !IsBlank(old(input)) ==>
        && emitted == Some(old(input))
        && sent == old(sent) + [SentQuestion(old(input), now)]
        && input == "" && isSubmitting
    {
      if IsBlank(input) {
        return None;
      }
      isSubmitting := true;
      emitted := Some(input);
      sent := sent + [SentQuestion(input, now)];
      input := "";
    }

    /** The end of the half-second pause after a send. */
    method SubmitSettled()
      modifies this`isSubmitting
      ensures !isSubmitting
    {
      isSubmitting := false;
    }

    /** `clearAllQuestions`: once the admin confirms, the sent list is empty. */
    method ClearAllQuestions(confirmed: bool)
      requires Valid()
      modifies this`sent
      ensures Valid()
      ensures sent == if confirmed then [] else old(sent)
    {
      if confirmed {
        sent := [];
      }
    }

    /** `removeQuestion`: drops exactly the sent question at `index`; an index out of range changes nothing. */
    method RemoveQuestion(index: int)
      requires Valid()
      modifies this`sent
      ensures Valid()
      ensures 0 <= index < |old(sent)| ==> sent == old(sent[..index] + sent[index + 1..])
      ensures !(0 <= index < |old(sent)|) ==> sent == old(sent)
    {
      WithoutIndexSplice(sent, index);
      sent := WithoutIndex(sent, index);
    }

    /** `copyQuestion`: a sent question's text goes back into the input. */
    method CopyQuestion(text: string)
      modifies this`input
      ensures input == text
    {
      input := text;
    }

    /** `addToSavedQuestions`: a blank input does nothing; otherwise the trimmed text is queued and the input cleared. */
    method AddToSavedQuestions(now: int)
      requires Valid()
      modifies this`saved, this`input
      ensures Valid()
      ensures IsBlank(old(input)) ==> saved == old(saved) && input == old(input)
      ensures !IsBlank(old(input)) ==> saved == old(saved) + [SavedQuestion(now, Trim(old(input)), now)] && input == ""
    {
      if IsBlank(input) {
        return;
      }
      TrimOfNonBlankIsNonBlank(input);
      TrimIdempotent(input);
      saved := saved + [SavedQuestion(now, Trim(input), now)];
      input := "";
    }

    /** `sendSavedQuestion`: emit the text, append it to the sent list, and drop every saved entry with that id. */
    method SendSavedQuestion(text: string, id: int, now: int) returns (emitted: Option<string>)
      requires Valid()
      modifies this`sent, this`saved
      ensures Valid()
      ensures emitted == Some(text)
      ensures sent == old(sent) + [SentQuestion(text, now)]
      ensures saved == WithoutId(old(saved), id)
      ensures forall q :: q in saved <==> q in old(saved) && q.id != id
    {
      WithoutIdMembers(saved, id);
      emitted := Some(text);
      sent := sent + [SentQuestion(text, now)];
      saved := WithoutId(saved, id);
    }

    /** `removeSavedQuestion`: drop every saved entry with that id and change nothing else. */
    method RemoveSavedQuestion(id: int)
      requires Valid()
      modifies this`saved
      ensures Valid()
      ensures saved == WithoutId(old(saved), id)
      ensures forall q :: q in saved <==> q in old(saved) && q.id != id
    {
      WithoutIdMembers(saved, id);
      saved := WithoutId(saved, id);
    }

    /** The interval field; it is disabled while auto-send is on. */
    method SetSendInterval(parsed: Parsed)
      requires Valid()
      modifies this`sendInterval
      ensures Valid()
      ensures sendInterval == IntervalFromInput(parsed)
    {
      sendInterval := IntervalFromInput(parsed);
    }

    /**
     * `startAutoSend`, offered only while auto-send is off: with an empty queue
     * nothing happens; otherwise auto-send is on and a timer with the current
     * interval is scheduled.
     */
    method StartAutoSend()
      requires Valid() && !autoSendEnabled
      modifies this`autoSendEnabled, this`timerRunning, this`timerPeriodMs, this`hasIntervalId
      ensures Valid()
      ensures |saved| == 0 ==> unchanged(this)
      ensures |saved| != 0 ==> autoSendEnabled && timerRunning && hasIntervalId && timerPeriodMs == sendInterval * 1000
    {
      if |saved| == 0 {
        return;
      }
      autoSendEnabled := true;
      timerRunning, timerPeriodMs, hasIntervalId := true, sendInterval * 1000, true;
    }

    /**
     * One firing of the auto-send timer: with an empty queue auto-send turns
     * off and the timer cancels itself (its id is kept); otherwise the head of
     * the queue is emitted and appended to the sent list, and the queue loses
     * its head.
     */
    method AutoSendTick(now: int) returns (emitted: Option<string>)
      requires Valid() && timerRunning
      modifies this`sent, this`saved, this`autoSendEnabled, this`timerRunning
      ensures Valid()
      ensures (sent, saved) == TickStep(old(sent), old(saved), now)
      ensures |sent| + |saved| == |old(sent)| + |old(saved)|
      ensures old(saved) == [] ==> emitted == None && !autoSendEnabled && !timerRunning && hasIntervalId
      ensures old(saved) != [] ==>
        && emitted == Some(old(saved[0].text)) && sent == old(sent) + [SentQuestion(old(saved[0].text), now)]
        && saved == old(saved[1..]) && autoSendEnabled && timerRunning
    {
      if saved == [] {
        autoSendEnabled := false;
        timerRunning := false;
        return None;
      }
      var head := saved[0];
      emitted := Some(head.text);
      sent := sent + [SentQuestion(head.text, now)];
      saved := saved[1..];
    }

    /** `stopAutoSend`: auto-send is off and a held timer is cancelled and forgotten. */
    method StopAutoSend()
      requires Valid()
      modifies this`autoSendEnabled, this`timerRunning, this`hasIntervalId
      ensures Valid()
      ensures !autoSendEnabled && !timerRunning
      ensures hasIntervalId == false
    {
      autoSendEnabled := false;
      if hasIntervalId {
        timerRunning, hasIntervalId := false, false;
      }
    }
  }
}
