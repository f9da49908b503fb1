/**
 * The dialogue context builder: the role-mapped history sent to the chat
 * provider and the role-labelled context block built from its most recent
 * entries.
 */
module DialogueContext {
  import opened Wrappers
  import opened Types

  /** How many of the most recent history entries the context block lists. */
  const WindowSize: nat := 6

  const ContextHeader: string := "\n\nPrevious conversation context:\n"
  const ContextFooter: string :=
    "\nBased on this conversation history, respond appropriately to continue the flow.\n"

  /** The chat provider's two roles. */
  datatype ChatRole = USER | CHATBOT

  /** One entry of the `chat_history` the chat provider receives. */
  datatype ChatEntry = ChatEntry(role: ChatRole, message: string)

  /** A session turn as the provider sees it: "USER" stays USER, any other role becomes CHATBOT. */
  function ToChatEntry(t: Turn): (e: ChatEntry)
    ensures e.role == USER <==> t.role == UserRole
    ensures e.message == t.message
  {
    ChatEntry(if t.role == UserRole then USER else CHATBOT, t.message)
  }

  function ToChatEntries(ts: seq<Turn>): (es: seq<ChatEntry>)
    ensures |es| == |ts|
    ensures forall i :: 0 <= i < |ts| ==> es[i] == ToChatEntry(ts[i])
  {
    if ts == [] then [] else [ToChatEntry(ts[0])] + ToChatEntries(ts[1..])
  }

  /** The provider history: every session turn but the last, in order, role-mapped. */
  function ChatHistory(log: seq<Turn>): (h: seq<ChatEntry>)
    ensures |h| == if log == [] then 0 else |log| - 1
    ensures forall i :: 0 <= i < |h| ==> h[i] == ToChatEntry(log[i])
  {
    if log == [] then [] else ToChatEntries(log[..|log| - 1])
  }

  function Label(r: ChatRole): string
  {
    if r == USER then "Patient" else "You (Receptionist)"
  }

  /** The context line of one entry. */
  function Line(e: ChatEntry): string
  {
    "- " + Label(e.role) + ": " + e.message + "\n"
  }

  /** The context lines of the entries, in order. */
  function Lines(w: seq<ChatEntry>): string
  {
    if w == [] then "" else Line(w[0]) + Lines(w[1..])
  }

  /** The last WindowSize entries, or all of them when there are fewer. */
  function Window(h: seq<ChatEntry>): seq<ChatEntry>
  {
    if |h| <= WindowSize then h else h[|h| - WindowSize..]
  }

  /** The context block: empty for an empty history, otherwise the windowed lines between a header and a footer. */
  function ContextBlock(h: seq<ChatEntry>): string
  {
    if h == [] then "" else ContextHeader + Lines(Window(h)) + ContextFooter
  }

  lemma {:induction false} LinesSnoc(w: seq<ChatEntry>, e: ChatEntry)
    ensures Lines(w + [e]) == Lines(w) + Line(e)
  {
    if w == [] {
      assert [e][1..] == [];
    } else {
      assert (w + [e])[1..] == w[1..] + [e];
      LinesSnoc(w[1..], e);
    }
  }

  lemma LinesStep(h: seq<ChatEntry>, start: nat, i: nat)
    requires start <= i < |h|
    ensures ContextHeader + Lines(h[start..i]) + Line(h[i]) == ContextHeader + Lines(h[start..i + 1])
  {
    assert h[start..i + 1] == h[start..i] + [h[i]];
    LinesSnoc(h[start..i], h[i]);
  }

  /** The imperative builder: header, then one `+=` per windowed entry, then the footer. */
  method BuildContext(history: seq<ChatEntry>) returns (summary: string)
    ensures summary == ContextBlock(history)
  {
    summary := "";
    if history != [] {
      summary := ContextHeader;
      var start := if |history| > WindowSize then |history| - WindowSize else 0;
      for i := start to |history|
        invariant summary == ContextHeader + Lines(history[start..i])
      {
        LinesStep(history, start, i);
        summary := summary + Line(history[i]);
      }
      assert history[start..|history|] == Window(history);
      summary := summary + ContextFooter;
    }
  }

  /** The block lists exactly min(WindowSize, |h|) entries, and they are the most recent ones in order. */
  lemma WindowIsRecentSuffix(h: seq<ChatEntry>)
    ensures |Window(h)| == if |h| < WindowSize then |h| else WindowSize
    ensures forall i :: 0 <= i < |Window(h)| ==> Window(h)[i] == h[|h| - |Window(h)| + i]
  {
  }

  /** The context block is empty exactly when the history is. */
  lemma ContextEmptyIff(h: seq<ChatEntry>)
    ensures ContextBlock(h) == "" <==> h == []
  {
  }

  /** Entries older than the window never influence the block. */
  lemma OlderEntriesDropped(older: seq<ChatEntry>, recent: seq<ChatEntry>)
    requires |recent| >= WindowSize
    ensures ContextBlock(older + recent) == ContextBlock(recent)
  {
    var h := older + recent;
    assert h[|h| - WindowSize..] == recent[|recent| - WindowSize..];
    assert Window(h) == Window(recent);
  }

  /** One more entry enters the window and, once the window is full, pushes out its oldest entry. */
  lemma WindowSlides(h: seq<ChatEntry>, e: ChatEntry)
    ensures Window(h + [e]) == (if |h| >= WindowSize then Window(h)[1..] else Window(h)) + [e]
  {
  }

  // ----- reading a context block back -----

  const PatientPrefix: string := "- Patient: "
  const ReceptionistPrefix: string := "- You (Receptionist): "

  /** Messages that fit on one context line. */
  predicate SingleLine(h: seq<ChatEntry>)
  {
    forall i :: 0 <= i < |h| ==> '\n' !in h[i].message
  }

  function IndexOfNewline(s: string): (k: nat)
    ensures k <= |s|
    ensures k < |s| ==> s[k] == '\n'
    ensures forall j :: 0 <= j < k ==> s[j] != '\n'
  {
    if s == [] || s[0] == '\n' then 0 else 1 + IndexOfNewline(s[1..])
  }

  function ParseMessage(role: ChatRole, s: string): (r: Option<(ChatEntry, string)>)
    ensures r.Some? ==> |r.value.1| < |s|
  {
    var k := IndexOfNewline(s);
    if k == |s| then None else Some((ChatEntry(role, s[..k]), s[k + 1..]))
  }

  /** Reads one labelled line off the front of `s`. */
  function ParseLine(s: string): (r: Option<(ChatEntry, string)>)
    ensures r.Some? ==> |r.value.1| < |s|
  {
    if |s| >= |PatientPrefix| && s[..|PatientPrefix|] == PatientPrefix then
      ParseMessage(USER, s[|PatientPrefix|..])
    else if |s| >= |ReceptionistPrefix| && s[..|ReceptionistPrefix|] == ReceptionistPrefix then
      ParseMessage(CHATBOT, s[|ReceptionistPrefix|..])
    else None
  }

  function ParseLines(s: string): Option<seq<ChatEntry>>
    decreases |s|
  {
    if s == [] then Some([])
    else
      match ParseLine(s)
      case None => None
      case Some((e, rest)) =>
        match ParseLines(rest)
        case None => None
        case Some(es) => Some([e] + es)
  }

  /** Reads a context block back into the entries it lists. */
  function ParseContext(s: string): Option<seq<ChatEntry>>
  {
    if s == [] then Some([])
    else if |s| >= |ContextHeader| + |ContextFooter| && s[..|ContextHeader|] == ContextHeader
         && s[|s| - |ContextFooter|..] == ContextFooter then
      ParseLines(s[|ContextHeader|..|s| - |ContextFooter|])
    else None
  }

  lemma IndexOfNewlineAfter(m: string, rest: string)
    requires '\n' !in m
    ensures IndexOfNewline(m + "\n" + rest) == |m|
  {
    var s := m + "\n" + rest;
    var k := IndexOfNewline(s);
    assert s[|m|] == '\n';
  }

  lemma LinePrefixes(e: ChatEntry)
    ensures Line(e) == (if e.role == USER then PatientPrefix else ReceptionistPrefix) + e.message + "\n"
  {
  }

  lemma ParseMessageAfter(role: ChatRole, m: string, rest: string)
    requires '\n' !in m
    ensures ParseMessage(role, m + "\n" + rest) == Some((ChatEntry(role, m), rest))
  {
    var tail := m + "\n" + rest;
    IndexOfNewlineAfter(m, rest);
    assert tail[..|m|] == m;
    assert tail[|m| + 1..] == rest;
  }

  lemma ParseLineOfLine(e: ChatEntry, rest: string)
    requires '\n' !in e.message
    ensures ParseLine(Line(e) + rest) == Some((e, rest))
  {
    var tail := e.message + "\n" + rest;
    LinePrefixes(e);
    ParseMessageAfter(e.role, e.message, rest);
    if e.role == USER {
      var s := PatientPrefix + tail;
      assert Line(e) + rest == s;
      assert s[..|PatientPrefix|] == PatientPrefix;
      assert s[|PatientPrefix|..] == tail;
    } else {
      var s := ReceptionistPrefix + tail;
      assert Line(e) + rest == s;
      assert s[2] != PatientPrefix[2];
      assert s[..|ReceptionistPrefix|] == ReceptionistPrefix;
      assert s[|ReceptionistPrefix|..] == tail;
    }
  }

  /** Single-line entries survive the line encoding: one line per entry, in order, role and message intact. */
  lemma {:induction false} LinesRoundTrip(w: seq<ChatEntry>)
    requires SingleLine(w)
    ensures ParseLines(Lines(w)) == Some(w)
  {
    if w != [] {
      var s := Lines(w);
      assert s == Line(w[0]) + Lines(w[1..]);
      assert |Line(w[0])| > 0;
      ParseLineOfLine(w[0], Lines(w[1..]));
      assert SingleLine(w[1..]) by {
        forall i | 0 <= i < |w[1..]| ensures '\n' !in w[1..][i].message {
          assert w[1..][i] == w[i + 1];
        }
      }
      LinesRoundTrip(w[1..]);
      assert [w[0]] + w[1..] == w;
    }
  }

  /** For single-line messages the context block lists exactly the windowed entries, in order. */
  lemma ContextRoundTrip(h: seq<ChatEntry>)
    requires SingleLine(h)
    ensures ParseContext(ContextBlock(h)) == Some(Window(h))
  {
    if h != [] {
      var w := Window(h);
      assert SingleLine(w) by {
        forall i | 0 <= i < |w| ensures '\n' !in w[i].message {
          assert w[i] == h[|h| - |w| + i];
        }
      }
      LinesRoundTrip(w);
      var s := ContextBlock(h);
      assert s[..|ContextHeader|] == ContextHeader;
      assert s[|s| - |ContextFooter|..] == ContextFooter;
      assert s[|ContextHeader|..|s| - |ContextFooter|] == Lines(w);
    }
  }
}
