/**
 * Emitting the administrator's initial prompts as transcript entries
 * without duplicating entries already recorded (utils/transcript_utils.py).
 */
module TranscriptUtils {
  import opened Wrappers
  import opened Strings
  import opened Constants
  import opened OpenAIService
  import opened NextjsClient

  /** Does `existing` already hold `prompt` (stripped) as an administrator entry? */
  predicate Recorded(existing: seq<TranscriptEntry>, prompt: string) {
    exists t | t in existing :: Strip(t.text) == Strip(prompt) && t.speaker == Some(SpeakerAdmin)
  }

  /** The valid prompts not yet recorded, in prompt-list order: what one run sends. */
  function PromptsToSend(prompts: seq<string>, existing: seq<TranscriptEntry>): (r: seq<string>)
    ensures |r| <= |prompts|
  {
    if prompts == [] then []
    else
      (if IsBlank(prompts[0]) || Recorded(existing, prompts[0]) then [] else [Strip(prompts[0])])
      + PromptsToSend(prompts[1..], existing)
  }

  /** The administrator transcript posts for the given texts. */
  function AdminPosts(callId: string, texts: seq<string>): (r: seq<CollabCall>)
    ensures |r| == |texts|
    ensures forall i | 0 <= i < |r| :: r[i] == PostTranscript(callId, texts[i], SpeakerAdmin)
  {
    seq(|texts|, i requires 0 <= i < |texts| => PostTranscript(callId, texts[i], SpeakerAdmin))
  }

  /**
   * `check_and_send_initial_prompts` with `send_transcript` as the sender:
   * `existing` is the fetched transcript list. Returns whether anything was
   * sent and the requests issued, in order.
   */
  method CheckAndSendInitialPrompts(callId: string, prompts: seq<string>,
                                    existing: seq<TranscriptEntry>, alreadySent: bool)
    returns (sentAny: bool, sends: seq<CollabCall>)
    ensures alreadySent || prompts == [] || callId == "" ==> !sentAny && sends == []
    ensures !(alreadySent || prompts == [] || callId == "") ==>
      sends == AdminPosts(callId, PromptsToSend(prompts, existing))
    ensures sentAny <==> sends != []
  {
    if alreadySent || prompts == [] || callId == "" {
      return false, [];
    }
    sentAny := false;
    sends := [];
    for i := 0 to |prompts|
      invariant sends == AdminPosts(callId, PromptsToSend(prompts[..i], existing))
      invariant sentAny <==> sends != []
    {
      PromptsToSendSnoc(prompts[..i], prompts[i], existing);
      assert prompts[..i + 1] == prompts[..i] + [prompts[i]];
      if IsBlank(prompts[i]) {
        continue;
      }
      var promptExists := Recorded(existing, prompts[i]);
      if !promptExists {
        var post := SendTranscript(callId, Strip(prompts[i]), SpeakerAdmin);
        AdminPostOfValid(callId, prompts[i]);
        AdminPostsSnoc(callId, PromptsToSend(prompts[..i], existing), Strip(prompts[i]));
        sends := sends + Requests(post);
        sentAny := true;
      }
    }
    assert prompts[..|prompts|] == prompts;
  }

  // ---------------------------------------------------------------------
  // Lemmas

  lemma {:induction false} PromptsToSendAppend(a: seq<string>, b: seq<string>, existing: seq<TranscriptEntry>)
    ensures PromptsToSend(a + b, existing) == PromptsToSend(a, existing) + PromptsToSend(b, existing)
  {
    if a == [] {
      assert a + b == b;
    } else {
      assert (a + b)[0] == a[0];
      assert (a + b)[1..] == a[1..] + b;
      PromptsToSendAppend(a[1..], b, existing);
    }
  }

  lemma PromptsToSendSnoc(a: seq<string>, p: string, existing: seq<TranscriptEntry>)
    ensures PromptsToSend(a + [p], existing)
         == PromptsToSend(a, existing) + (if IsBlank(p) || Recorded(existing, p) then [] else [Strip(p)])
  {
    PromptsToSendAppend(a, [p], existing);
    assert PromptsToSend([p], existing) == (if IsBlank(p) || Recorded(existing, p) then [] else [Strip(p)]) by {
      assert [p][1..] == [];
    }
  }

  lemma AdminPostsSnoc(callId: string, texts: seq<string>, t: string)
    ensures AdminPosts(callId, texts + [t]) == AdminPosts(callId, texts) + [PostTranscript(callId, t, SpeakerAdmin)]
  {
  }

  /** `send_transcript` posts a valid prompt unchanged. */
  lemma AdminPostOfValid(callId: string, p: string)
    requires callId != "" && !IsBlank(p)
    ensures SendTranscript(callId, Strip(p), SpeakerAdmin) == Some(PostTranscript(callId, Strip(p), SpeakerAdmin))
  {
    StripIdempotent(p);
  }

  /** Recording is judged on stripped text, so a stripped prompt is recorded exactly when the prompt is. */
  lemma RecordedOfStripped(existing: seq<TranscriptEntry>, p: string)
    ensures Recorded(existing, Strip(p)) == Recorded(existing, p)
  {
    StripIdempotent(p);
  }

  /** Every text sent is a non-blank, stripped prompt of the list that was not yet recorded. */
  lemma {:induction false} SentPromptsAreNewAndClean(prompts: seq<string>, existing: seq<TranscriptEntry>, k: int)
    requires 0 <= k < |PromptsToSend(prompts, existing)|
    ensures var p := PromptsToSend(prompts, existing)[k];
      && p != "" && Strip(p) == p && !Recorded(existing, p)
      && exists i | 0 <= i < |prompts| :: p == Strip(prompts[i])
  {
    var head := if IsBlank(prompts[0]) || Recorded(existing, prompts[0]) then [] else [Strip(prompts[0])];
    var tail := PromptsToSend(prompts[1..], existing);
    assert PromptsToSend(prompts, existing) == head + tail;
    if k < |head| {
      var p := Strip(prompts[0]);
      assert PromptsToSend(prompts, existing)[k] == p;
      StripIdempotent(prompts[0]);
      RecordedOfStripped(existing, prompts[0]);
      assert p == Strip(prompts[0]);
    } else {
      var p := tail[k - |head|];
      assert PromptsToSend(prompts, existing)[k] == p;
      SentPromptsAreNewAndClean(prompts[1..], existing, k - |head|);
      var j :| 0 <= j < |prompts[1..]| && p == Strip(prompts[1..][j]);
      assert prompts[1..][j] == prompts[j + 1];
      assert p == Strip(prompts[j + 1]);
    }
  }

  /** Every non-blank prompt not yet recorded is sent. */
  lemma {:induction false} NewPromptsAreSent(prompts: seq<string>, existing: seq<TranscriptEntry>, i: int)
    requires 0 <= i < |prompts| && !IsBlank(prompts[i]) && !Recorded(existing, prompts[i])
    ensures Strip(prompts[i]) in PromptsToSend(prompts, existing)
  {
    if i > 0 {
      assert prompts[1..][i - 1] == prompts[i];
      NewPromptsAreSent(prompts[1..], existing, i - 1);
    }
  }

  /** With nothing recorded yet, exactly the valid prompts are sent. */
  lemma {:induction false} FirstRunSendsValidPrompts(prompts: seq<string>)
    ensures PromptsToSend(prompts, []) == ValidPrompts(prompts)
  {
    if prompts != [] {
      FirstRunSendsValidPrompts(prompts[1..]);
    }
  }

  /** The administrator entries the record-keeping service stores for the given texts. */
  function AdminEntries(texts: seq<string>, timestamp: int): (r: seq<TranscriptEntry>)
    ensures |r| == |texts|
  {
    seq(|texts|, i requires 0 <= i < |texts| => TranscriptEntry(texts[i], Some(SpeakerAdmin), timestamp))
  }

  /**
   * Re-running after the sent prompts were recorded sends nothing: once the
   * entries of one run are stored, the next run finds every prompt.
   */
  lemma RerunSendsNothing(prompts: seq<string>, existing: seq<TranscriptEntry>, timestamp: int)
    ensures PromptsToSend(prompts, existing + AdminEntries(PromptsToSend(prompts, existing), timestamp)) == []
  {
    var sent := PromptsToSend(prompts, existing);
    var after := existing + AdminEntries(sent, timestamp);
    forall i | 0 <= i < |prompts| && !IsBlank(prompts[i])
      ensures Recorded(after, prompts[i])
    {
      RecordedAfterRun(prompts, existing, timestamp, i);
    }
    NothingToSend(prompts, after);
  }

  lemma RecordedAfterRun(prompts: seq<string>, existing: seq<TranscriptEntry>, timestamp: int, i: int)
    requires 0 <= i < |prompts| && !IsBlank(prompts[i])
    ensures Recorded(existing + AdminEntries(PromptsToSend(prompts, existing), timestamp), prompts[i])
  {
    var sent := PromptsToSend(prompts, existing);
    var after := existing + AdminEntries(sent, timestamp);
    if Recorded(existing, prompts[i]) {
      var t :| t in existing && Strip(t.text) == Strip(prompts[i]) && t.speaker == Some(SpeakerAdmin);
      assert t in after;
    } else {
      NewPromptsAreSent(prompts, existing, i);
      var k :| 0 <= k < |sent| && sent[k] == Strip(prompts[i]);
      StripIdempotent(prompts[i]);
      var t := after[|existing| + k];
      assert t == TranscriptEntry(sent[k], Some(SpeakerAdmin), timestamp);
      assert t in after && Strip(t.text) == Strip(prompts[i]);
    }
  }

  /** A list whose every non-blank prompt is recorded sends nothing. */
  lemma {:induction false} NothingToSend(prompts: seq<string>, existing: seq<TranscriptEntry>)
    requires forall i | 0 <= i < |prompts| && !IsBlank(prompts[i]) :: Recorded(existing, prompts[i])
    ensures PromptsToSend(prompts, existing) == []
  {
    if prompts != [] {
      NothingToSend(prompts[1..], existing);
    }
  }

  /** The number of non-blank prompts of the list whose stripped text is `text`. */
  function Occurrences(prompts: seq<string>, text: string): nat {
    if prompts == [] then 0
    else (if !IsBlank(prompts[0]) && Strip(prompts[0]) == text then 1 else 0) + Occurrences(prompts[1..], text)
  }

  /**
   * Duplicates within one list are each sent, since the recorded list is not
   * extended during a run: an unrecorded prompt is sent as often as it
   * occurs (up to surrounding whitespace), a recorded one never.
   */
  lemma {:induction false} DuplicatesAreEachSent(prompts: seq<string>, existing: seq<TranscriptEntry>, p: string)
    ensures multiset(PromptsToSend(prompts, existing))[Strip(p)] ==
      if Recorded(existing, p) then 0 else Occurrences(prompts, Strip(p))
  {
    if prompts != [] {
      DuplicatesAreEachSent(prompts[1..], existing, p);
      var q := prompts[0];
      var head := if IsBlank(q) || Recorded(existing, q) then [] else [Strip(q)];
      assert PromptsToSend(prompts, existing) == head + PromptsToSend(prompts[1..], existing);
      if Strip(q) == Strip(p) {
        assert Recorded(existing, q) == Recorded(existing, p);
      }
    }
  }
}
