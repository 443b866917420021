/**
 * Compilation of a finished call's transcript (handlers/media_stream.py,
 * the `finally` block): the administrator's initial prompts first, then
 * every recorded entry in timestamp order, one line each.
 */
module FinalTranscript {
  import opened Wrappers
  import opened Strings
  import opened OpenAIService
  import opened NextjsClient

  // ---------------------------------------------------------------------
  // sorted(transcripts, key=lambda x: x.get("timestamp", 0))

  predicate SortedByTimestamp(s: seq<TranscriptEntry>) {
    forall i, j | 0 <= i < j < |s| :: s[i].timestamp <= s[j].timestamp
  }

  /** Insert `e` in front of the first entry that is not older. */
  function Insert(e: TranscriptEntry, s: seq<TranscriptEntry>): (r: seq<TranscriptEntry>)
    ensures |r| == |s| + 1
    ensures multiset(r) == multiset(s) + multiset{e}
  {
    if s == [] || e.timestamp <= s[0].timestamp then [e] + s
    else
      assert s == [s[0]] + s[1..];
      [s[0]] + Insert(e, s[1..])
  }

  /** Every entry of `Insert(e, s)` is `e` or an entry of `s`. */
  lemma InsertFrom(e: TranscriptEntry, s: seq<TranscriptEntry>, k: int)
    requires 0 <= k < |Insert(e, s)|
    ensures Insert(e, s)[k] == e || Insert(e, s)[k] in s
  {
    var r := Insert(e, s);
    assert r[k] in multiset(r);
  }

  lemma {:induction false} InsertSorted(e: TranscriptEntry, s: seq<TranscriptEntry>)
    requires SortedByTimestamp(s)
    ensures SortedByTimestamp(Insert(e, s))
  {
    if s != [] && e.timestamp > s[0].timestamp {
      var rest := Insert(e, s[1..]);
      InsertSorted(e, s[1..]);
      forall k | 0 <= k < |rest| ensures s[0].timestamp <= rest[k].timestamp {
        InsertFrom(e, s[1..], k);
      }
    }
  }

  /** Python's stable `sorted` by timestamp, as an insertion sort. */
  function SortByTimestamp(s: seq<TranscriptEntry>): (r: seq<TranscriptEntry>)
    ensures |r| == |s|
    ensures multiset(r) == multiset(s)
  {
    if s == [] then []
    else
      assert s == [s[0]] + s[1..];
      Insert(s[0], SortByTimestamp(s[1..]))
  }

  /** The compiled transcript lists entries oldest first. */
  lemma {:induction false} SortByTimestampIsSorted(s: seq<TranscriptEntry>)
    ensures SortedByTimestamp(SortByTimestamp(s))
  {
    if s != [] {
      SortByTimestampIsSorted(s[1..]);
      InsertSorted(s[0], SortByTimestamp(s[1..]));
    }
  }

  /** The entries with timestamp `t`, in order. */
  function WithTimestamp(s: seq<TranscriptEntry>, t: int): (r: seq<TranscriptEntry>)
    ensures |r| <= |s|
  {
    if s == [] then []
    else (if s[0].timestamp == t then [s[0]] else []) + WithTimestamp(s[1..], t)
  }

  lemma {:induction false} WithTimestampCons(x: TranscriptEntry, s: seq<TranscriptEntry>, t: int)
    ensures WithTimestamp([x] + s, t) == (if x.timestamp == t then [x] else []) + WithTimestamp(s, t)
  {
    var r := [x] + s;
    assert r[0] == x && r[1..] == s;
  }

  lemma {:induction false} InsertKeepsOrderOfEquals(e: TranscriptEntry, s: seq<TranscriptEntry>, t: int)
    ensures WithTimestamp(Insert(e, s), t) == (if e.timestamp == t then [e] else []) + WithTimestamp(s, t)
  {
    if s == [] || e.timestamp <= s[0].timestamp {
      WithTimestampCons(e, s, t);
    } else {
      var rest := Insert(e, s[1..]);
      InsertKeepsOrderOfEquals(e, s[1..], t);
      WithTimestampCons(s[0], rest, t);
      WithTimestampCons(s[0], s[1..], t);
      assert [s[0]] + s[1..] == s;
    }
  }

  /**
   * The sort is stable: entries with equal timestamps keep their recorded
   * order. Together with sortedness and the permutation property this
   * determines the output completely.
   */
  lemma {:induction false} SortIsStable(s: seq<TranscriptEntry>, t: int)
    ensures WithTimestamp(SortByTimestamp(s), t) == WithTimestamp(s, t)
  {
    if s != [] {
      SortIsStable(s[1..], t);
      InsertKeepsOrderOfEquals(s[0], SortByTimestamp(s[1..]), t);
    }
  }

  // ---------------------------------------------------------------------
  // The compiled text

  function AdminLine(prompt: string): string {
    "[ADMIN]: " + prompt
  }

  /** `t.get('speaker', 'unknown')` */
  function SpeakerName(t: TranscriptEntry): string {
    if t.speaker.Some? then t.speaker.value else "unknown"
  }

  /** `f"[{speaker.upper()}]: {text}"` */
  function TranscriptLine(t: TranscriptEntry): string {
    "[" + Upper(SpeakerName(t)) + "]: " + t.text
  }

  /** One line per valid initial prompt, then one per entry in timestamp order. */
  function FinalLines(prompts: seq<string>, transcripts: seq<TranscriptEntry>): (r: seq<string>)
    ensures var valid := ValidPrompts(prompts);
      && |r| == |valid| + |transcripts|
      && (forall i | 0 <= i < |valid| :: r[i] == AdminLine(valid[i]))
      && (forall j | 0 <= j < |transcripts| :: r[|valid| + j] == TranscriptLine(SortByTimestamp(transcripts)[j]))
  {
    var valid := ValidPrompts(prompts);
    var sorted := SortByTimestamp(transcripts);
    seq(|valid|, i requires 0 <= i < |valid| => AdminLine(valid[i]))
      + seq(|sorted|, j requires 0 <= j < |sorted| => TranscriptLine(sorted[j]))
  }

  /** The `finalTranscription` metadata value: the lines joined by newlines. */
  function FinalTranscriptionText(prompts: seq<string>, transcripts: seq<TranscriptEntry>): string {
    Join(FinalLines(prompts, transcripts), "\n")
  }

  /** Every administrator prompt and every recorded entry appears as a line of the text. */
  lemma EveryLineInText(prompts: seq<string>, transcripts: seq<TranscriptEntry>, k: int)
    requires 0 <= k < |ValidPrompts(prompts)| + |transcripts|
    ensures Contains(FinalTranscriptionText(prompts, transcripts), FinalLines(prompts, transcripts)[k])
  {
    JoinContainsPart(FinalLines(prompts, transcripts), "\n", k);
  }

  /** Is `c` a lower-case ASCII letter? */
  predicate IsLowerAscii(c: char) {
    'a' <= c <= 'z'
  }

  /**
   * Every entry's line is its speaker tag in brackets, then `: ` and the
   * text. The tag is the speaker (`unknown` when absent) with each
   * lower-case ASCII letter raised to its capital and every other character
   * kept, so it holds no lower-case ASCII letter.
   */
  lemma SpeakerTagIsUpper(t: TranscriptEntry)
    ensures var name := SpeakerName(t);
      var line := TranscriptLine(t);
      && |line| == |name| + 4 + |t.text|
      && line[0] == '[' && line[1 + |name|..] == "]: " + t.text
      && var tag := line[1..1 + |name|];
      && (forall i | 0 <= i < |tag| :: !IsLowerAscii(tag[i]))
      && (forall i | 0 <= i < |tag| ::
            tag[i] == (if IsLowerAscii(name[i]) then (name[i] as int - 32) as char else name[i]))
    ensures t.speaker.None? ==> TranscriptLine(t)[..8] == "[UNKNOWN"
  {
    var name := SpeakerName(t);
    var line := TranscriptLine(t);
    assert line == "[" + Upper(name) + "]: " + t.text;
    assert line[1..1 + |name|] == Upper(name);
  }
}
