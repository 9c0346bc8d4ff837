/**
 * The sink adapter: what sendToTopoApiOrFile is handed (an append-only log of
 * calls, each answered by a success oracle that nobody branches on), and its
 * file-mode branch, which frames each payload as one `V:` or `E:` line.
 */
module Sink {
  import opened Wrappers
  import opened JsStrings
  import opened Values
  import opened Settings

  /** The three payload shapes the engine sends. */
  datatype Payload =
    | Vertex(record: Record)
    | ElementUpdate(uniqueId: string, change: Option<Value>, entityTypes: seq<string>, matchTokens: seq<string>)
    | Relation(fromUniqueId: string, toUniqueId: string, edgeType: string)

  /** One call `sendToTopoApiOrFile(endpoint, data)`. */
  datatype Call = Call(endpoint: string, payload: Payload)

  /** Every call made to the sink, in order; `delivered(k)` is whether the k-th call succeeds. */
  class EventLog {
    const delivered: nat -> bool
    var calls: seq<Call>

    constructor (delivered: nat -> bool)
      ensures this.delivered == delivered && calls == []
    {
      this.delivered := delivered;
      calls := [];
    }

    method Send(endpoint: string, data: Payload) returns (ok: bool)
      modifies this
      ensures calls == old(calls) + [Call(endpoint, data)]
      ensures ok == delivered(|old(calls)|)
    {
      ok := delivered(|calls|);
      calls := calls + [Call(endpoint, data)];
    }
  }

  datatype LineKind = VertexLine | EdgeLine

  /** One line of the artifact: its kind and the JSON text of the payload. */
  datatype Entry = Entry(kind: LineKind, json: string)

  /** The vertex-or-edge decision on the endpoint; the vertex test is made first. */
  function Classify(cfg: Config, endpoint: string): (kind: Option<LineKind>)
    ensures endpoint == cfg.resourcesEp || StartsWith(endpoint, cfg.topoEp) ==> kind == Some(VertexLine)
    ensures kind == Some(EdgeLine) ==> endpoint == cfg.referencesEp
    ensures endpoint == cfg.referencesEp && endpoint != cfg.resourcesEp && !StartsWith(endpoint, cfg.topoEp) ==>
      kind == Some(EdgeLine)
    ensures kind.None? <==> endpoint != cfg.resourcesEp && !StartsWith(endpoint, cfg.topoEp) && endpoint != cfg.referencesEp
  {
    if endpoint == cfg.resourcesEp || StartsWith(endpoint, cfg.topoEp) then Some(VertexLine)
    else if endpoint == cfg.referencesEp then Some(EdgeLine)
    else None
  }

  function Tag(kind: LineKind): string {
    match kind
    case VertexLine => "V:"
    case EdgeLine => "E:"
  }

  function RenderLine(e: Entry): (line: string)
    ensures |line| == |e.json| + 3 && line[|line| - 1] == '\n'
  {
    Tag(e.kind) + e.json + "\n"
  }

  function RenderAll(es: seq<Entry>): string {
    if es == [] then "" else RenderLine(es[0]) + RenderAll(es[1..])
  }

  lemma {:induction false} RenderAllAppend(es: seq<Entry>, e: Entry)
    ensures RenderAll(es + [e]) == RenderAll(es) + RenderLine(e)
  {
    if es != [] {
      assert (es + [e])[1..] == es[1..] + [e];
      RenderAllAppend(es[1..], e);
    } else {
      assert RenderAll([e]) == RenderLine(e) + RenderAll([]);
    }
  }

  /** Reads one line (without its newline) back into an entry. */
  function ParseLine(line: string): Option<Entry> {
    if |line| >= 2 && line[..2] == "V:" then Some(Entry(VertexLine, line[2..]))
    else if |line| >= 2 && line[..2] == "E:" then Some(Entry(EdgeLine, line[2..]))
    else None
  }

  /** Reads an artifact back: newline-terminated lines, each `V:` or `E:` followed by JSON. */
  function ParseArtifact(text: string): Option<seq<Entry>>
    decreases |text|
  {
    if text == [] then Some([])
    else
      var i := FirstIndex(text, '\n');
      if i == |text| then None
      else match ParseLine(text[..i])
        case None => None
        case Some(e) =>
          match ParseArtifact(text[i + 1..])
          case None => None
          case Some(es) => Some([e] + es)
  }

  /** A tagged line reads back as its kind and its JSON text. */
  lemma ParseTagged(kind: LineKind, json: string)
    ensures ParseLine(Tag(kind) + json) == Some(Entry(kind, json))
  {
    var line := Tag(kind) + json;
    assert line[..2] == Tag(kind) && line[2..] == json;
  }

  lemma NoNewlineInTagged(kind: LineKind, json: string)
    requires '\n' !in json
    ensures '\n' !in Tag(kind) + json
  {
    var head := Tag(kind) + json;
    forall k | 0 <= k < |head| ensures head[k] != '\n' {
      if k >= 2 { assert head[k] == json[k - 2]; }
    }
  }

  /** A first line free of inner newlines is read on its own, then the rest. */
  lemma ParseArtifactStep(head: string, rest: string, e: Entry, es: seq<Entry>)
    requires '\n' !in head && ParseLine(head) == Some(e) && ParseArtifact(rest) == Some(es)
    ensures ParseArtifact(head + "\n" + rest) == Some([e] + es)
  {
    var text := head + "\n" + rest;
    FirstIndexAfter(head, '\n', rest);
    assert text[..|head|] == head;
    assert text[|head| + 1..] == rest;
  }

  /**
   * Since JSON.stringify never writes a raw newline, an artifact made of
   * framed lines reads back as exactly the entries that were appended.
   */
  lemma {:induction false} ArtifactRoundTrip(es: seq<Entry>)
    requires forall e :: e in es ==> '\n' !in e.json
    ensures ParseArtifact(RenderAll(es)) == Some(es)
  {
    if es != [] {
      var e, tail := es[0], es[1..];
      var head := Tag(e.kind) + e.json;
      CleanSplit(es);
      NoNewlineInTagged(e.kind, e.json);
      ParseTagged(e.kind, e.json);
      ArtifactRoundTrip(tail);
      RenderAllFirst(es);
      ParseArtifactStep(head, RenderAll(tail), e, tail);
      assert [e] + tail == es;
    }
  }

  /** The newline-free condition holds of the first entry and of the rest. */
  lemma CleanSplit(es: seq<Entry>)
    requires es != [] && forall e :: e in es ==> '\n' !in e.json
    ensures '\n' !in es[0].json
    ensures forall e :: e in es[1..] ==> '\n' !in e.json
  {
    assert es[0] in es;
    assert forall x :: x in es[1..] ==> x in es;
  }

  lemma RenderAllFirst(es: seq<Entry>)
    requires es != []
    ensures RenderAll(es) == Tag(es[0].kind) + es[0].json + "\n" + RenderAll(es[1..])
  {
  }

  /** The file-mode branch of sendToTopoApiOrFile, appending to the run's artifact. */
  class FileSink {
    const cfg: Config
    const stringify: Payload -> string
    var content: string
    ghost var entries: seq<Entry>

    ghost predicate Valid()
      reads this
    {
      && content == RenderAll(entries)
      && forall e :: e in entries ==> exists p :: e.json == stringify(p)
    }

    /** The artifact of a previous run has been deleted: the file starts empty. */
    constructor (cfg: Config, stringify: Payload -> string)
      ensures Valid() && content == "" && entries == []
      ensures this.cfg == cfg && this.stringify == stringify
    {
      this.cfg := cfg;
      this.stringify := stringify;
      content := "";
      entries := [];
    }

    /**
     * `appendSucceeds` is whether fs.appendFileSync completes; a vertex-class
     * endpoint gives a `V:` line, the references endpoint an `E:` line, and any
     * other endpoint appends nothing and fails.
     */
    method SendToFile(endpoint: string, data: Payload, appendSucceeds: bool) returns (ok: bool)
      requires Valid()
      modifies this
      ensures Valid()
      ensures ok == (Classify(cfg, endpoint).Some? && appendSucceeds)
      ensures entries == if ok then old(entries) + [Entry(Classify(cfg, endpoint).value, stringify(data))]
                         else old(entries)
      ensures content == if ok then old(content) + RenderLine(Entry(Classify(cfg, endpoint).value, stringify(data)))
                         else old(content)
    {
      var jsonString := stringify(data);
      if endpoint == cfg.resourcesEp || StartsWith(endpoint, cfg.topoEp) {
        if !appendSucceeds {
          return false;
        }
        RenderAllAppend(entries, Entry(VertexLine, jsonString));
        content := content + ("V:" + jsonString + "\n");
        entries := entries + [Entry(VertexLine, jsonString)];
        return true;
      } else if endpoint == cfg.referencesEp {
        if !appendSucceeds {
          return false;
        }
        RenderAllAppend(entries, Entry(EdgeLine, jsonString));
        content := content + ("E:" + jsonString + "\n");
        entries := entries + [Entry(EdgeLine, jsonString)];
        return true;
      } else {
        return false;
      }
    }
  }

  /** The artifact of a file sink always reads back as the entries appended to it. */
  lemma ArtifactReadsBack(sink: FileSink)
    requires sink.Valid()
    requires forall p :: '\n' !in sink.stringify(p)
    ensures ParseArtifact(sink.content) == Some(sink.entries)
  {
    forall e | e in sink.entries ensures '\n' !in e.json {
      var p :| e.json == sink.stringify(p);
    }
    ArtifactRoundTrip(sink.entries);
  }
}
