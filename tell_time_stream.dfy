/** The streaming tell-time agent's `stream`: a fold of the runner's event
    stream into progress items, followed by exactly one terminal item that
    carries the last non-empty message text, or a fallback asking the user
    to try again. */
module TellTimeStream {
  import opened Common

  /** The run items the agent distinguishes; `MessageOutputItem` carries the
      text `ItemHelpers.text_message_output` extracts. */
  datatype RunItem = ToolCallItem | ToolCallOutputItem | MessageOutputItem(text: string) | OtherItem

  /** The streamed events: token-level raw responses, run-item events, and
      any other event type. */
  datatype Event = RawResponseEvent | RunItemEvent(item: RunItem) | OtherEvent

  /** One yielded dict: `is_task_complete`, `require_user_input`, `content`. */
  datatype StreamItem = StreamItem(isTaskComplete: bool, requireUserInput: bool, content: string)

  const LookingUpText := "Looking up the current time..."
  const ProcessingText := "Processing the time result..."
  const FallbackText := "Unable to process your request at the moment. Please try again."

  /** The progress items one event produces. */
  function ProgressOf(e: Event): (r: seq<StreamItem>)
    ensures |r| <= 1
    ensures forall k :: 0 <= k < |r| ==> !r[k].isTaskComplete && !r[k].requireUserInput
    ensures r != [] <==> e == RunItemEvent(ToolCallItem) || e == RunItemEvent(ToolCallOutputItem)
    ensures e == RunItemEvent(ToolCallItem) ==> r == [StreamItem(false, false, LookingUpText)]
    ensures e == RunItemEvent(ToolCallOutputItem) ==> r == [StreamItem(false, false, ProcessingText)]
  {
    match e
    case RunItemEvent(ToolCallItem) => [StreamItem(false, false, LookingUpText)]
    case RunItemEvent(ToolCallOutputItem) => [StreamItem(false, false, ProcessingText)]
    case _ => []
  }

  /** The progress items of a prefix of the stream, in event order. */
  function Progress(events: seq<Event>): (r: seq<StreamItem>)
    ensures forall k :: 0 <= k < |r| ==> !r[k].isTaskComplete && !r[k].requireUserInput
    ensures |r| <= |events|
  {
    if |events| == 0 then []
    else Progress(events[..|events| - 1]) + ProgressOf(events[|events| - 1])
  }

  /** An event that sets `final_output`: a message with non-empty text. */
  predicate SetsOutput(e: Event)
  {
    e.RunItemEvent? && e.item.MessageOutputItem? && e.item.text != ""
  }

  /** The value `final_output` holds after the events: the text of the last
      message with non-empty text. */
  function FinalOutput(events: seq<Event>): (r: Option<string>)
    ensures r.None? <==> forall i :: 0 <= i < |events| ==> !SetsOutput(events[i])
    ensures r.Some? ==> r.value != ""
  {
    if |events| == 0 then None
    else
      var last := events[|events| - 1];
      var init := events[..|events| - 1];
      assert forall i :: 0 <= i < |init| ==> init[i] == events[i];
      if SetsOutput(last) then Some(last.item.text) else FinalOutput(init)
  }

  /** The last message with non-empty text wins, whatever came before it. */
  lemma {:induction false} FinalOutputIsLastMessage(events: seq<Event>, i: nat)
    requires i < |events| && SetsOutput(events[i])
    requires forall j :: i < j < |events| ==> !SetsOutput(events[j])
    ensures FinalOutput(events) == Some(events[i].item.text)
  {
    if i < |events| - 1 {
      var init := events[..|events| - 1];
      assert forall j :: i < j < |init| ==> init[j] == events[j];
      FinalOutputIsLastMessage(init, i);
    }
  }

  /** The one item yielded after the stream ends. */
  function Terminal(finalOutput: Option<string>): (r: StreamItem)
    ensures r.isTaskComplete <==> finalOutput.Some?
    ensures r.requireUserInput <==> !r.isTaskComplete
    ensures finalOutput.Some? ==> r.content == finalOutput.value
    ensures finalOutput.None? ==> r.content == FallbackText
  {
    match finalOutput
    case Some(text) => StreamItem(true, false, text)
    case None => StreamItem(false, true, FallbackText)
  }

  /** `stream` over the events the runner delivers. `raised` is the
      exception the runner raises after those events, if any: nothing in
      `stream` catches it, so the items already yielded stand, no terminal
      item follows, and the exception reaches the caller as `error`. */
  method Stream(events: seq<Event>, raised: Option<string>) returns (out: seq<StreamItem>, error: Option<string>)
    ensures error == raised
    ensures raised.None? ==> out == Progress(events) + [Terminal(FinalOutput(events))]
    ensures raised.Some? ==> out == Progress(events)
    ensures raised.Some? ==> forall k :: 0 <= k < |out| ==> !out[k].isTaskComplete && !out[k].requireUserInput
  {
    error := None;
    out := [];
    var finalOutput: Option<string> := None;
    var i := 0;
    while i < |events|
      invariant 0 <= i <= |events|
      invariant out == Progress(events[..i])
      invariant finalOutput == FinalOutput(events[..i])
    {
      var event := events[i];
      assert events[..i + 1][..i] == events[..i];
      if event.RawResponseEvent? {
        i := i + 1;
        continue;
      }
      if event.RunItemEvent? {
        var item := event.item;
        if item.ToolCallItem? {
          out := out + [StreamItem(false, false, LookingUpText)];
        } else if item.ToolCallOutputItem? {
          out := out + [StreamItem(false, false, ProcessingText)];
        } else if item.MessageOutputItem? {
          var text := item.text;
          if text != "" {
            finalOutput := Some(text);
          }
        }
      }
      i := i + 1;
    }
    assert events[..i] == events;
    if raised.Some? {
      error := raised;
      return;
    }
    if finalOutput.Some? {
      out := out + [StreamItem(true, false, finalOutput.value)];
    } else {
      out := out + [StreamItem(false, true, FallbackText)];
    }
  }

  lemma {:induction false} ProgressConcat(a: seq<Event>, b: seq<Event>)
    ensures Progress(a + b) == Progress(a) + Progress(b)
    decreases |b|
  {
    if |b| == 0 {
      assert a + b == a;
    } else {
      assert (a + b)[..|a + b| - 1] == a + b[..|b| - 1];
      ProgressConcat(a, b[..|b| - 1]);
    }
  }

  lemma {:induction false} FinalOutputConcat(a: seq<Event>, b: seq<Event>)
    ensures FinalOutput(a + b) == if FinalOutput(b).Some? then FinalOutput(b) else FinalOutput(a)
    decreases |b|
  {
    if |b| == 0 {
      assert a + b == a;
    } else {
      assert (a + b)[..|a + b| - 1] == a + b[..|b| - 1];
      FinalOutputConcat(a, b[..|b| - 1]);
    }
  }

  /** Events that produce nothing (raw responses, unrecognised events,
      messages without text) can be dropped from the stream without changing
      the progress items... */
  lemma {:induction false} SilentEventNoProgress(before: seq<Event>, e: Event, after: seq<Event>)
    requires ProgressOf(e) == []
    ensures Progress(before + [e] + after) == Progress(before + after)
  {
    assert Progress([e]) == [] by {
      assert [e][..0] == [];
    }
    calc {
      Progress(before + [e] + after);
      { ProgressConcat(before + [e], after); }
      Progress(before + [e]) + Progress(after);
      { ProgressConcat(before, [e]); }
      Progress(before) + Progress(after);
      { ProgressConcat(before, after); }
      Progress(before + after);
    }
  }

  /** ...nor the final output. */
  lemma {:induction false} SilentEventNoOutput(before: seq<Event>, e: Event, after: seq<Event>)
    requires !SetsOutput(e)
    ensures FinalOutput(before + [e] + after) == FinalOutput(before + after)
  {
    FinalOutputConcat(before + [e], after);
    FinalOutputConcat(before, [e]);
    FinalOutputConcat(before, after);
    assert [e][..0] == [];
  }

  /** The stream ends with exactly one terminal item: every item before it
      is an incomplete progress item, and the last is complete exactly when
      some message carried text. */
  lemma {:induction false} OneTerminalItem(events: seq<Event>, out: seq<StreamItem>)
    requires out == Progress(events) + [Terminal(FinalOutput(events))]
    ensures forall k :: 0 <= k < |out| - 1 ==> !out[k].isTaskComplete && !out[k].requireUserInput
    ensures out[|out| - 1].isTaskComplete <==> exists i :: 0 <= i < |events| && SetsOutput(events[i])
  {
    assert forall k :: 0 <= k < |out| - 1 ==> out[k] == Progress(events)[k];
  }

  /** A run that calls the tool once and then answers yields the two
      progress items and the answer. */
  lemma ToolRoundTrip(answer: string)
    requires answer != ""
    ensures
      var events := [RawResponseEvent, RunItemEvent(ToolCallItem), RunItemEvent(ToolCallOutputItem),
                     RunItemEvent(MessageOutputItem(answer))];
      Progress(events) + [Terminal(FinalOutput(events))] ==
        [StreamItem(false, false, LookingUpText), StreamItem(false, false, ProcessingText),
         StreamItem(true, false, answer)]
  {
    var events := [RawResponseEvent, RunItemEvent(ToolCallItem), RunItemEvent(ToolCallOutputItem),
                   RunItemEvent(MessageOutputItem(answer))];
    assert events[..3] == [RawResponseEvent, RunItemEvent(ToolCallItem), RunItemEvent(ToolCallOutputItem)];
    assert events[..3][..2] == [RawResponseEvent, RunItemEvent(ToolCallItem)];
    assert events[..3][..2][..1] == [RawResponseEvent];
    assert Progress([RawResponseEvent]) == [] by {
      assert [RawResponseEvent][..0] == [];
    }
    assert Progress(events[..3]) == [StreamItem(false, false, LookingUpText), StreamItem(false, false, ProcessingText)];
    FinalOutputIsLastMessage(events, 3);
  }
}
