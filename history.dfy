/** The "Recent chats" list App.js keeps in its `chatHistory` state: one entry
    per successful send, most recent first, never more than ten. */
module History {
  import opened JsText

  /** How many code units of the message a title keeps. */
  const TitleLength: nat := 40

  /** How many entries the list keeps. */
  const HistoryCap: nat := 10

  /** "..." — three full stops, appended to a title that was cut short. */
  const Ellipsis: JsString := [0x2E, 0x2E, 0x2E]

  /** A history entry. Its `id` and `timestamp` are clock readings for
      display and are not modelled. */
  datatype Entry = Entry(title: JsString, preview: JsString)

  /** `text.substring(0, 40) + (text.length > 40 ? '...' : '')`: the title
      starts with the text's first 40 code units, is the text itself when the
      text is short enough, and otherwise is those 40 code units and "...". */
  function Title(text: JsString): (r: JsString)
    ensures Min(|text|, TitleLength) <= |r| <= TitleLength + |Ellipsis|
    ensures r[..Min(|text|, TitleLength)] == text[..Min(|text|, TitleLength)]
    ensures |text| <= TitleLength ==> r == text
    ensures |text| > TitleLength ==> |r| == TitleLength + |Ellipsis| && r[TitleLength..] == Ellipsis
  {
    Prefix(text, TitleLength) + (if |text| > TitleLength then Ellipsis else [])
  }

  /** The title is the text itself exactly when the text fits in 40 code
      units, or when it is 43 long and already ends in "..." after its first
      40 (then the cut-and-append gives the text back). */
  lemma TitleIsTextIff(text: JsString)
    ensures Title(text) == text <==>
      |text| <= TitleLength ||
      (|text| == TitleLength + |Ellipsis| && text[TitleLength..] == Ellipsis)
  {
  }

  /** Titling a title changes nothing. */
  lemma TitleIdempotent(text: JsString)
    ensures Title(Title(text)) == Title(text)
  {
  }

  /** The entry recorded for a successful send of `text`: the full text as
      preview, and a title of at most 43 code units that starts like the text
      and is the text itself when the text has at most 40. */
  function EntryFor(text: JsString): (e: Entry)
    ensures e.preview == text
    ensures Min(|text|, TitleLength) <= |e.title| <= TitleLength + |Ellipsis|
    ensures e.title[..Min(|text|, TitleLength)] == text[..Min(|text|, TitleLength)]
    ensures |text| <= TitleLength ==> e.title == text
  {
    Entry(Title(text), text)
  }

  /** `[entry, ...prev].slice(0, 10)`: the new entry first, then the oldest
      list's entries in order, as many as fit in ten. */
  function PushHistory(h: seq<Entry>, e: Entry): (r: seq<Entry>)
    ensures |r| == Min(|h| + 1, HistoryCap)
    ensures r[0] == e
    ensures r[1..] == h[..|r| - 1]
  {
    ([e] + h)[..Min(|h| + 1, HistoryCap)]
  }

  /** `s` back to front. */
  function Reversed(s: seq<Entry>): (r: seq<Entry>)
    ensures |r| == |s|
    ensures forall i :: 0 <= i < |s| ==> r[i] == s[|s| - 1 - i]
  {
    if s == [] then [] else Reversed(s[1..]) + [s[0]]
  }

  /** The list after recording `es`, oldest first, onto `h`. */
  function RecordAll(h: seq<Entry>, es: seq<Entry>): (r: seq<Entry>)
    decreases es
  {
    if es == [] then h else RecordAll(PushHistory(h, es[0]), es[1..])
  }

  /** Recording a run of entries leaves the newest first, followed by the
      older list, cut to ten: the list is a bounded most-recent-first log. */
  lemma {:induction false} RecordAllKeepsMostRecent(h: seq<Entry>, es: seq<Entry>)
    requires |h| <= HistoryCap
    ensures RecordAll(h, es) == (Reversed(es) + h)[..Min(|es| + |h|, HistoryCap)]
    decreases es
  {
    if es == [] {
      assert h[..|h|] == h;
    } else {
      var x, y := Reversed(es[1..]), [es[0]] + h;
      var h' := PushHistory(h, es[0]);
      RecordAllKeepsMostRecent(h', es[1..]);
      assert Reversed(es) == x + [es[0]];
      assert x + [es[0]] + h == x + y;
      var m := Min(|es| + |h|, HistoryCap);
      assert (x + h')[..m] == (x + y)[..m] by {
        forall j | 0 <= j < m ensures (x + h')[j] == (x + y)[j] {
          if j >= |x| {
            assert h'[j - |x|] == y[j - |x|];
          }
        }
      }
    }
  }

  /** Starting from an empty list, after any number of successful sends the
      list holds the last min(n, 10) entries, the most recent first; so after
      eleven sends the first one has been evicted. */
  lemma MostRecentFirst(es: seq<Entry>)
    ensures |RecordAll([], es)| == Min(|es|, HistoryCap)
    ensures forall j :: 0 <= j < |RecordAll([], es)| ==> RecordAll([], es)[j] == es[|es| - 1 - j]
  {
    RecordAllKeepsMostRecent([], es);
    assert Reversed(es) + [] == Reversed(es);
  }
}
