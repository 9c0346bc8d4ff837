/**
 * The reconciliation engine (prepareAndSendChangeData). For each change, in
 * order: normalise it, keep it only when its status is of interest and it has a
 * title, resolve its organisations, split its services into tags, send the
 * change vertex, then link it either to every resolved organisation (the
 * broadcast case) or to every matching topology element of every named service
 * (the targeted case).
 */
module Engine {
  import opened Wrappers
  import opened JsStrings
  import opened Values
  import opened Settings
  import opened Normalizer
  import opened OrgIndex
  import opened Sink

  /**
   * A topology element found by name: its internal `_id`, `uniqueId`, `opco`,
   * `entityTypes` and `matchTokens`. The empty string stands for a missing field.
   */
  datatype Element = Element(id: string, uniqueId: string, opco: string, entityTypes: seq<string>, matchTokens: seq<string>)

  /**
   * The engine's collaborators: `clock(i)` is Date.now() when change i is
   * normalised, `parseDate` is `new Date(...)`, and `lookup` is the topology
   * query by name (a failed or empty query gives no elements).
   */
  datatype Env = Env(clock: nat -> int, parseDate: Value -> Epoch, lookup: string -> seq<Element>)

  /** What processing one change sends, whether it threw, and the state it leaves the record in. */
  datatype ChangeOutcome = ChangeOutcome(calls: seq<Call>, aborted: bool, final: Record)

  /** `changeTypesOfInterest.split(',')`. */
  function StatusesOfInterest(cfg: Config): seq<string> {
    Split(cfg.typesOfInterest, ",")
  }

  /** `changeType && changeTypesOfInterestList.includes(changeType)`. */
  predicate OfInterest(cfg: Config, c: Record)
    ensures OfInterest(cfg, c) ==>
      cfg.statusAttr in c && c[cfg.statusAttr].Str? && c[cfg.statusAttr].s != "" && c[cfg.statusAttr].s in StatusesOfInterest(cfg)
    ensures cfg.statusAttr in c && c[cfg.statusAttr].StrList? ==> !OfInterest(cfg, c)
  {
    match Attr(c, cfg.statusAttr)
    case Some(Str(s)) => s != "" && s in StatusesOfInterest(cfg)
    case _ => false
  }

  /**
   * `replaceAllOccurrences(changeTitle.trim(), '\t')`: the replacement is
   * undefined, so each inner tab becomes the text "undefined".
   */
  function TitleName(title: string): (name: string)
    ensures '\t' !in name
    ensures '\t' !in Trim(title) ==> name == Trim(title)
  {
    ReplaceChar(Trim(title), '\t', "undefined")
  }

  /**
   * The items `for (let opco of affectedOpcosList)` visits: the characters of a
   * string, the elements of a list; `None` when reading `.length` throws.
   */
  function OpcoCodes(v: Option<Value>): (codes: Option<seq<string>>)
    ensures codes.None? <==> v.None? || v.value.Null?
    ensures v.Some? && v.value.Str? ==>
      |codes.value| == |v.value.s| && forall i :: 0 <= i < |v.value.s| ==> codes.value[i] == [v.value.s[i]]
    ensures v.Some? && v.value.StrList? ==> codes.value == v.value.items
  {
    match v
    case Some(Str(s)) => Some(seq(|s|, i requires 0 <= i < |s| => [s[i]]))
    case Some(StrList(l)) => Some(l)
    case _ => None
  }

  /** `.length` of a value. */
  function Length(v: Value): nat {
    match v
    case Null => 0
    case Str(s) => |s|
    case StrList(l) => |l|
  }

  /** `affectedServicesString.split(SEPERATOR).map(item => item.trim())`. */
  function Tokens(cfg: Config, services: string): (tokens: seq<string>)
    ensures |tokens| == |Split(services, cfg.separator)|
    ensures cfg.separator != "" ==> |tokens| >= 1
  {
    TrimAll(Split(services, cfg.separator))
  }

  /** Every token has no whitespace at either end. */
  lemma TokensTrimmed(cfg: Config, services: string)
    ensures forall i :: 0 <= i < |Tokens(cfg, services)| ==> Trimmed(Tokens(cfg, services)[i])
  {
    TrimAllTrimmed(Split(services, cfg.separator));
  }

  /** The tokens that the tags loop pushes: the non-empty ones, in order. */
  function NonEmpty(tokens: seq<string>): (r: seq<string>)
    ensures |r| <= |tokens|
    ensures forall x :: x in r <==> x in tokens && x != ""
  {
    if tokens == [] then []
    else
      var init := tokens[..|tokens| - 1];
      var last := tokens[|tokens| - 1];
      assert forall x :: x in tokens <==> x in init || x == last;
      NonEmpty(init) + (if last != "" then [last] else [])
  }

  /** Filtering distributes over concatenation, so the tags keep the source order. */
  lemma {:induction false} NonEmptyConcat(a: seq<string>, b: seq<string>)
    ensures NonEmpty(a + b) == NonEmpty(a) + NonEmpty(b)
    decreases |b|
  {
    if b == [] {
      assert a + b == a;
    } else {
      var init := b[..|b| - 1];
      assert (a + b)[..|a + b| - 1] == a + init;
      NonEmptyConcat(a, init);
    }
  }

  /** The broadcast case: one token, equal to one of the two indicators. */
  predicate IsBroadcast(cfg: Config, tokens: seq<string>)
    ensures IsBroadcast(cfg, tokens) ==> tokens == [cfg.apiGwIndicator] || tokens == [cfg.stbsIndicator]
  {
    |tokens| == 1 && (tokens[0] == cfg.apiGwIndicator || tokens[0] == cfg.stbsIndicator)
  }

  function RelationCall(cfg: Config, from: string, to: string): Call {
    Call(cfg.referencesEp, Relation(from, to, HasEdgeType))
  }

  /** The organisation loop of the broadcast case. */
  function BroadcastCalls(cfg: Config, uid: string, opcos: seq<string>): (calls: seq<Call>)
    ensures |calls| <= |opcos|
    ensures forall c :: c in calls ==> c.endpoint == cfg.referencesEp && c.payload.Relation? && c.payload.toUniqueId == uid
  {
    if opcos == [] then []
    else
      var last := opcos[|opcos| - 1];
      BroadcastCalls(cfg, uid, opcos[..|opcos| - 1]) + (if last != "" then [RelationCall(cfg, last, uid)] else [])
  }

  /** An element is linked when it has an organisation and an id and its organisation is affected. */
  predicate Eligible(e: Element, opcos: seq<string>) {
    e.opco != "" && e.uniqueId != "" && e.opco in opcos
  }

  function UpdateCall(cfg: Config, e: Element, status: Option<Value>): Call {
    Call(cfg.topoEp + "/" + e.id, ElementUpdate(e.uniqueId, status, e.entityTypes, e.matchTokens))
  }

  /** The element loop of the targeted case, for the elements of one service. */
  function ElementCalls(cfg: Config, uid: string, status: Option<Value>, opcos: seq<string>, elements: seq<Element>): (calls: seq<Call>)
    ensures |calls| % 2 == 0 && |calls| <= 2 * |elements|
  {
    if elements == [] then []
    else
      var e := elements[|elements| - 1];
      ElementCalls(cfg, uid, status, opcos, elements[..|elements| - 1])
        + (if Eligible(e, opcos) then [UpdateCall(cfg, e, status), RelationCall(cfg, e.uniqueId, uid)] else [])
  }

  /** The service loop of the targeted case. */
  function TargetedCalls(cfg: Config, lookup: string -> seq<Element>, uid: string, status: Option<Value>,
                         opcos: seq<string>, tokens: seq<string>): (calls: seq<Call>)
    ensures |calls| % 2 == 0
    ensures (forall i :: 0 <= i < |tokens| ==> tokens[i] == "") ==> calls == []
  {
    if tokens == [] then []
    else
      var t := tokens[|tokens| - 1];
      TargetedCalls(cfg, lookup, uid, status, opcos, tokens[..|tokens| - 1])
        + (if t != "" then ElementCalls(cfg, uid, status, opcos, lookup(t)) else [])
  }

  /**
   * A change either stops before anything is sent (`Halt`, with whether it
   * threw and the record as left), or reaches the sending stage (`Ready`)
   * with its named record, id, resolved organisation ids and services text.
   */
  datatype Prepared =
    | Halt(aborted: bool, final: Record)
    | Ready(named: Record, uid: string, opcos: seq<string>, services: string)

  /**
   * The two normalisation steps every change goes through first, before any
   * filter: beautification (`None` when it throws) and the topology properties.
   */
  function Normalized(cfg: Config, parseDate: Value -> Epoch, raw: Record, nowMs: int): (c: Option<Record>)
    ensures c.None? <==> Beautified(cfg, raw).Failure?
    ensures c.Some? ==>
      var uid := UidOf(cfg, parseDate, Beautified(cfg, raw).value, nowMs);
      && c.value.Keys == raw.Keys + {"uniqueId", "entityTypes", "matchTokens"}
      && c.value["uniqueId"] == Str(uid)
      && c.value["entityTypes"] == StrList([ChangeEntityType])
      && c.value["matchTokens"] == StrList([uid])
      && forall k :: k in raw && k !in {"uniqueId", "entityTypes", "matchTokens"} ==> c.value[k] == Beautified(cfg, raw).value[k]
  {
    match Beautified(cfg, raw)
    case Failure(_) => None
    case Success(b) => Some(WithTopoProperties(b, UidOf(cfg, parseDate, b, nowMs)))
  }

  /** The id generateUID gives a beautified change. */
  function UidOf(cfg: Config, parseDate: Value -> Epoch, b: Record, nowMs: int): (uid: string)
    ensures StartsWith(uid, "CHG_") && '|' !in uid
    ensures var services := ServicesText(Attr(b, cfg.servicesAttr));
      ParseUid(uid) == Some(UidParts(EpochText(StartEpoch(cfg, parseDate, b, nowMs)),
                                     if services == "" then None else Some(ReplaceChar(services, '|', "_"))))
  {
    UidRoundTrip(StartEpoch(cfg, parseDate, b, nowMs), ServicesText(Attr(b, cfg.servicesAttr)));
    GenerateUid(StartEpoch(cfg, parseDate, b, nowMs), ServicesText(Attr(b, cfg.servicesAttr)))
  }

  /** Everything prepareAndSendChangeData does to one change before its first send. */
  function Prepare(cfg: Config, env: Env, index: map<string, string>, raw: Record, nowMs: int): (p: Prepared)
    ensures Normalized(cfg, env.parseDate, raw, nowMs).None? ==> p == Halt(true, raw)
    ensures p.Ready? || (p.Halt? && p.aborted && Normalized(cfg, env.parseDate, raw, nowMs).Some?) ==>
      Normalized(cfg, env.parseDate, raw, nowMs).Some? && OfInterest(cfg, Normalized(cfg, env.parseDate, raw, nowMs).value)
    ensures p.Ready? ==> p.uid == Normalized(cfg, env.parseDate, raw, nowMs).value["uniqueId"].s
  {
    match Normalized(cfg, env.parseDate, raw, nowMs)
    case None => Halt(true, raw)
    case Some(c) =>
      if !OfInterest(cfg, c) then Halt(false, c) else ProceedTitle(cfg, index, c, c["uniqueId"].s)
  }

  /** The title check and the organisation and services reads of a change of interest. */
  function ProceedTitle(cfg: Config, index: map<string, string>, c: Record, uid: string): (p: Prepared)
    ensures p.Ready? ==>
      && cfg.titleAttr in c && c[cfg.titleAttr].Str? && c[cfg.titleAttr].s != ""
      && Attr(p.named, "name") == Some(Str(TitleName(c[cfg.titleAttr].s)))
      && Attr(p.named, "tags") == Some(StrList([ChangeEntityType]))
      && p.uid == uid && p.services != ""
  {
    match Attr(c, cfg.titleAttr)
    case Some(StrList(_)) => Halt(true, c)
    case Some(Str(t)) =>
      if t == "" then Halt(false, c)
      else
        var n := c["name" := Str(TitleName(t))]["tags" := StrList([ChangeEntityType])];
        (match OpcoCodes(Attr(n, cfg.opcoAttr))
         case None => Halt(true, n)
         case Some(codes) =>
           var opcos := Resolve(index, codes);
           match Attr(n, cfg.servicesAttr)
           case Some(Str(s)) => if s == "" then Halt(false, n) else Ready(n, uid, opcos, s)
           case Some(StrList(l)) => Halt(|l| > 0, n)
           case _ => Halt(false, n))
    case Some(Null) => Halt(false, c)
    case None => Halt(false, c)
  }

  /** The sending stage: the vertex, then the broadcast or the targeted relations. */
  function Emit(cfg: Config, lookup: string -> seq<Element>, n: Record, uid: string, opcos: seq<string>, services: string): (o: ChangeOutcome)
    ensures !o.aborted && o.calls != [] && o.calls[0] == Call(cfg.resourcesEp, Vertex(o.final))
    ensures o.final.Keys == n.Keys + {"tags"}
    ensures forall k :: k in n && k != "tags" ==> o.final[k] == n[k]
  {
    var tokens := Tokens(cfg, services);
    var v := n["tags" := StrList([ChangeEntityType] + NonEmpty(tokens))];
    var rest :=
      if IsBroadcast(cfg, tokens) then BroadcastCalls(cfg, uid, opcos)
      else TargetedCalls(cfg, lookup, uid, Attr(v, cfg.statusAttr), opcos, tokens);
    ChangeOutcome([Call(cfg.resourcesEp, Vertex(v))] + rest, false, v)
  }

  /** One iteration of the loop over the changes. */
  function ProcessChange(cfg: Config, env: Env, index: map<string, string>, raw: Record, nowMs: int): (o: ChangeOutcome)
    ensures o.aborted ==> o.calls == []
    ensures o.calls != [] ==> o.calls[0] == Call(cfg.resourcesEp, Vertex(o.final))
  {
    Finish(cfg, env.lookup, Prepare(cfg, env, index, raw, nowMs))
  }

  /** A halted change emits nothing; a ready one goes through the sending stage. */
  function Finish(cfg: Config, lookup: string -> seq<Element>, p: Prepared): ChangeOutcome {
    match p
    case Halt(aborted, final) => ChangeOutcome([], aborted, final)
    case Ready(n, uid, opcos, s) => Emit(cfg, lookup, n, uid, opcos, s)
  }

  datatype RunOutcome = RunOutcome(calls: seq<Call>, aborted: bool)

  /** The outcome each change would have on its own; change i is normalised at `clock(i)`. */
  function Outcomes(cfg: Config, env: Env, index: map<string, string>, raws: seq<Record>): (os: seq<ChangeOutcome>)
    ensures |os| == |raws|
  {
    if raws == [] then []
    else Outcomes(cfg, env, index, raws[..|raws| - 1]) + [ProcessChange(cfg, env, index, raws[|raws| - 1], env.clock(|raws| - 1))]
  }

  /** Entry k of `outs` is change k processed at `clock(k)`. */
  predicate OutcomeIs(cfg: Config, env: Env, index: map<string, string>, raws: seq<Record>, outs: seq<ChangeOutcome>, k: nat) {
    k < |raws| && k < |outs| && outs[k] == ProcessChange(cfg, env, index, raws[k], env.clock(k))
  }

  /** Entry i of the outcomes is change i processed at `clock(i)`. */
  lemma {:induction false} OutcomeAt(cfg: Config, env: Env, index: map<string, string>, raws: seq<Record>, i: nat)
    requires i < |raws|
    ensures Outcomes(cfg, env, index, raws)[i] == ProcessChange(cfg, env, index, raws[i], env.clock(i))
    decreases |raws|
  {
    if i < |raws| - 1 {
      OutcomeAt(cfg, env, index, raws[..|raws| - 1], i);
    }
  }

  /** The calls of the outcomes in order, up to and including the first one that threw. */
  function Fold(os: seq<ChangeOutcome>): RunOutcome {
    if os == [] then RunOutcome([], false)
    else
      var prev := Fold(os[..|os| - 1]);
      if prev.aborted then prev
      else RunOutcome(prev.calls + os[|os| - 1].calls, os[|os| - 1].aborted)
  }

  /** The whole pass: the changes in order, stopping at the first one that throws. */
  function Run(cfg: Config, env: Env, index: map<string, string>, raws: seq<Record>): (r: RunOutcome)
    ensures r.aborted <==> exists k :: 0 <= k < |raws| && ProcessChange(cfg, env, index, raws[k], env.clock(k)).aborted
  {
    RunAbortIff(cfg, env, index, raws);
    Fold(Outcomes(cfg, env, index, raws))
  }

  /** A fold aborts exactly when one of its outcomes threw. */
  lemma {:induction false} FoldAborted(os: seq<ChangeOutcome>)
    ensures Fold(os).aborted <==> exists k :: 0 <= k < |os| && os[k].aborted
  {
    if os != [] {
      var init := os[..|os| - 1];
      FoldAborted(init);
      assert forall k :: 0 <= k < |init| ==> init[k] == os[k];
    }
  }

  lemma RunAbortIff(cfg: Config, env: Env, index: map<string, string>, raws: seq<Record>)
    ensures Fold(Outcomes(cfg, env, index, raws)).aborted <==>
      exists k :: 0 <= k < |raws| && ProcessChange(cfg, env, index, raws[k], env.clock(k)).aborted
  {
    var os := Outcomes(cfg, env, index, raws);
    FoldAborted(os);
    forall k | 0 <= k < |raws| ensures os[k] == ProcessChange(cfg, env, index, raws[k], env.clock(k)) {
      OutcomeAt(cfg, env, index, raws, k);
    }
  }

  /** Change i is processed exactly when no earlier change threw. */
  predicate Reached(cfg: Config, env: Env, index: map<string, string>, raws: seq<Record>, i: nat)
    requires i <= |raws|
  {
    !Fold(Outcomes(cfg, env, index, raws)[..i]).aborted
  }

  /** Once a prefix of the outcomes has thrown, the rest adds nothing. */
  lemma {:induction false} AbortIsFinal(os: seq<ChangeOutcome>, k: nat)
    requires k <= |os|
    requires Fold(os[..k]).aborted
    ensures Fold(os) == Fold(os[..k])
    decreases |os| - k
  {
    if k < |os| {
      var init := os[..|os| - 1];
      assert init[..k] == os[..k];
      AbortIsFinal(init, k);
    } else {
      assert os[..k] == os;
    }
  }

  lemma AppendAssoc<T>(a: seq<T>, b: seq<T>, c: seq<T>)
    ensures (a + b) + c == a + (b + c)
  {
  }

  /** One more outcome, when none before it threw. */
  lemma FoldStep(os: seq<ChangeOutcome>, i: nat)
    requires i < |os| && !Fold(os[..i]).aborted
    ensures Fold(os[..i + 1]) == RunOutcome(Fold(os[..i]).calls + os[i].calls, os[i].aborted)
  {
    assert os[..i + 1][..i] == os[..i];
  }

  /** If no outcome before i threw, then none before any j <= i did. */
  lemma PrefixesReached(os: seq<ChangeOutcome>, i: nat)
    requires i <= |os| && !Fold(os[..i]).aborted
    ensures forall j :: 0 <= j <= i ==> !Fold(os[..j]).aborted
  {
    forall j | 0 <= j <= i ensures !Fold(os[..j]).aborted {
      if Fold(os[..j]).aborted {
        assert os[..i][..j] == os[..j];
        AbortIsFinal(os[..i], j);
      }
    }
  }

  /** After an outcome throws, every longer prefix has thrown too. */
  lemma AbortedAfter(os: seq<ChangeOutcome>, k: nat)
    requires k <= |os| && Fold(os[..k]).aborted
    ensures forall j :: k <= j <= |os| ==> Fold(os[..j]).aborted
  {
    forall j | k <= j <= |os| ensures Fold(os[..j]).aborted {
      assert os[..j][..k] == os[..k];
      AbortIsFinal(os[..j], k);
    }
  }

  /**
   * Where a fold stopped: when the fold of the first i outcomes has not aborted
   * before its last one, and either aborted there or covered everything, the
   * outcomes reached are exactly those before i.
   */
  lemma ReachedIff(os: seq<ChangeOutcome>, i: nat, k: nat)
    requires i <= |os| && k < |os|
    requires i > 0 ==> !Fold(os[..i - 1]).aborted
    requires Fold(os[..i]).aborted || i == |os|
    ensures !Fold(os[..k]).aborted <==> k < i
  {
    if k < i {
      PrefixesReached(os, i - 1);
    } else {
      AbortedAfter(os, i);
    }
  }

  /** The fold of everything is the fold up to where it stopped. */
  lemma StoppedAt(os: seq<ChangeOutcome>, i: nat)
    requires i <= |os|
    requires Fold(os[..i]).aborted || i == |os|
    ensures Fold(os) == Fold(os[..i])
  {
    if i == |os| {
      assert os[..i] == os;
    } else {
      AbortIsFinal(os, i);
    }
  }

  // ---------------------------------------------------------------------------
  // The imperative engine
  // ---------------------------------------------------------------------------

  /** `change.tags.push(affectedService)` for every non-empty service, in order. */
  method PushTags(change: ChangeRecord, affectedServices: seq<string>)
    requires "tags" in change.attrs && change.attrs["tags"].StrList?
    modifies change
    ensures change.attrs == old(change.attrs)["tags" := StrList(old(change.attrs)["tags"].items + NonEmpty(affectedServices))]
  {
    ghost var start := change.attrs;
    ghost var tags0 := start["tags"].items;
    assert NonEmpty(affectedServices[..0]) == [];
    assert tags0 + [] == tags0;
    assert start["tags" := StrList(tags0)] == start;
    var i := 0;
    while i < |affectedServices|
      invariant 0 <= i <= |affectedServices|
      invariant change.attrs == start["tags" := StrList(tags0 + NonEmpty(affectedServices[..i]))]
    {
      assert affectedServices[..i + 1][..i] == affectedServices[..i];
      var affectedService := affectedServices[i];
      assert NonEmpty(affectedServices[..i + 1])
          == NonEmpty(affectedServices[..i]) + (if affectedService != "" then [affectedService] else []);
      if affectedService != "" {
        assert (tags0 + NonEmpty(affectedServices[..i])) + [affectedService]
            == tags0 + (NonEmpty(affectedServices[..i]) + [affectedService]);
        change.attrs := change.attrs["tags" := StrList(change.attrs["tags"].items + [affectedService])];
      } else {
        assert NonEmpty(affectedServices[..i]) + [] == NonEmpty(affectedServices[..i]);
      }
      i := i + 1;
    }
    assert affectedServices[..i] == affectedServices;
  }

  /** The broadcast loop: one organisation-to-change relation per resolved organisation. */
  method LinkOpcos(cfg: Config, uid: string, affectedOpcos: seq<string>, log: EventLog)
    modifies log
    ensures log.calls == old(log.calls) + BroadcastCalls(cfg, uid, affectedOpcos)
  {
    var i := 0;
    while i < |affectedOpcos|
      invariant 0 <= i <= |affectedOpcos|
      invariant log.calls == old(log.calls) + BroadcastCalls(cfg, uid, affectedOpcos[..i])
    {
      ghost var prefix := BroadcastCalls(cfg, uid, affectedOpcos[..i]);
      assert affectedOpcos[..i + 1][..i] == affectedOpcos[..i];
      var affectedOpco := affectedOpcos[i];
      ghost var step := if affectedOpco != "" then [RelationCall(cfg, affectedOpco, uid)] else [];
      assert BroadcastCalls(cfg, uid, affectedOpcos[..i + 1]) == prefix + step;
      if affectedOpco != "" {
        var sent := log.Send(cfg.referencesEp, Relation(affectedOpco, uid, HasEdgeType));
        AppendAssoc(old(log.calls), prefix, step);
      } else {
        assert prefix + step == prefix;
      }
      i := i + 1;
    }
    assert affectedOpcos[..i] == affectedOpcos;
  }

  /** The element loop for one found service: an update and a relation per matching element. */
  method LinkElements(cfg: Config, uid: string, status: Option<Value>, affectedOpcos: seq<string>,
                      topoElements: seq<Element>, log: EventLog)
    modifies log
    ensures log.calls == old(log.calls) + ElementCalls(cfg, uid, status, affectedOpcos, topoElements)
  {
    var j := 0;
    while j < |topoElements|
      invariant 0 <= j <= |topoElements|
      invariant log.calls == old(log.calls) + ElementCalls(cfg, uid, status, affectedOpcos, topoElements[..j])
    {
      ghost var prefix := ElementCalls(cfg, uid, status, affectedOpcos, topoElements[..j]);
      assert topoElements[..j + 1][..j] == topoElements[..j];
      var topoElement := topoElements[j];
      ghost var step := if Eligible(topoElement, affectedOpcos)
        then [UpdateCall(cfg, topoElement, status), RelationCall(cfg, topoElement.uniqueId, uid)] else [];
      assert ElementCalls(cfg, uid, status, affectedOpcos, topoElements[..j + 1]) == prefix + step;
      var eleOpco := topoElement.opco;
      var eleUniqueId := topoElement.uniqueId;
      if eleOpco != "" && eleUniqueId != "" && eleOpco in affectedOpcos {
        var eleUpdate := ElementUpdate(eleUniqueId, status, topoElement.entityTypes, topoElement.matchTokens);
        var updated := log.Send(cfg.topoEp + "/" + topoElement.id, eleUpdate);
        var linked := log.Send(cfg.referencesEp, Relation(eleUniqueId, uid, HasEdgeType));
        assert prefix + step == (prefix + [step[0]]) + [step[1]];
        AppendAssoc(old(log.calls), prefix, [step[0]]);
        AppendAssoc(old(log.calls), prefix + [step[0]], [step[1]]);
      } else {
        assert prefix + step == prefix;
      }
      j := j + 1;
    }
    assert topoElements[..j] == topoElements;
  }

  /** The targeted loop over the services. */
  method LinkServices(cfg: Config, lookup: string -> seq<Element>, uid: string, status: Option<Value>,
                      affectedOpcos: seq<string>, affectedServices: seq<string>, log: EventLog)
    modifies log
    ensures log.calls == old(log.calls) + TargetedCalls(cfg, lookup, uid, status, affectedOpcos, affectedServices)
  {
    var i := 0;
    while i < |affectedServices|
      invariant 0 <= i <= |affectedServices|
      invariant log.calls == old(log.calls) + TargetedCalls(cfg, lookup, uid, status, affectedOpcos, affectedServices[..i])
    {
      ghost var prefix := TargetedCalls(cfg, lookup, uid, status, affectedOpcos, affectedServices[..i]);
      assert affectedServices[..i + 1][..i] == affectedServices[..i];
      var affectedService := affectedServices[i];
      ghost var step := if affectedService != "" then ElementCalls(cfg, uid, status, affectedOpcos, lookup(affectedService)) else [];
      assert TargetedCalls(cfg, lookup, uid, status, affectedOpcos, affectedServices[..i + 1]) == prefix + step;
      if affectedService != "" {
        var topoElements := lookup(affectedService);
        LinkElements(cfg, uid, status, affectedOpcos, topoElements, log);
        AppendAssoc(old(log.calls), prefix, step);
      } else {
        assert prefix + step == prefix;
      }
      i := i + 1;
    }
    assert affectedServices[..i] == affectedServices;
  }

  /** The body of the loop over the changes, for one change record. */
  method ProcessChangeObject(cfg: Config, env: Env, opcoTopoData: map<string, string>, change: ChangeRecord,
                             nowMs: int, log: EventLog) returns (aborted: bool)
    modifies change, log
    ensures log.calls == old(log.calls) + ProcessChange(cfg, env, opcoTopoData, old(change.attrs), nowMs).calls
    ensures aborted == ProcessChange(cfg, env, opcoTopoData, old(change.attrs), nowMs).aborted
    ensures change.attrs == ProcessChange(cfg, env, opcoTopoData, old(change.attrs), nowMs).final
  {
    ghost var raw := change.attrs;
    ghost var p := Prepare(cfg, env, opcoTopoData, raw, nowMs);
    var threw := BeautifyChangeObject(cfg, change);
    if threw {
      assert p == Halt(true, raw);
      return true;
    }
    var uid := AddAiopsTopoPropperties(cfg, env.parseDate, nowMs, change);
    ghost var c := change.attrs;
    assert p == if !OfInterest(cfg, c) then Halt(false, c) else ProceedTitle(cfg, opcoTopoData, c, uid);

    var changeTypesOfInterestList := Split(cfg.typesOfInterest, ",");
    var changeType := Attr(change.attrs, cfg.statusAttr);
    if !(Truthy(changeType) && changeType.value.Str? && changeType.value.s in changeTypesOfInterestList) {
      return false;
    }
    aborted := ProceedTitleObject(cfg, env.lookup, opcoTopoData, change, uid, log);
  }

  /** The title, organisation and services stages of a change of interest, then its sending. */
  method ProceedTitleObject(cfg: Config, lookup: string -> seq<Element>, opcoTopoData: map<string, string>,
                            change: ChangeRecord, uid: string, log: EventLog) returns (aborted: bool)
    modifies change, log
    ensures log.calls == old(log.calls) + Finish(cfg, lookup, ProceedTitle(cfg, opcoTopoData, old(change.attrs), uid)).calls
    ensures aborted == Finish(cfg, lookup, ProceedTitle(cfg, opcoTopoData, old(change.attrs), uid)).aborted
    ensures change.attrs == Finish(cfg, lookup, ProceedTitle(cfg, opcoTopoData, old(change.attrs), uid)).final
  {
    ghost var p := ProceedTitle(cfg, opcoTopoData, change.attrs, uid);
    var changeTitle := Attr(change.attrs, cfg.titleAttr);
    if !Truthy(changeTitle) {
      return false;
    }
    if !changeTitle.value.Str? {
      return true;  // trim of an array throws
    }
    change.attrs := change.attrs["name" := Str(TitleName(changeTitle.value.s))];
    change.attrs := change.attrs["tags" := StrList([ChangeEntityType])];
    ghost var n := change.attrs;

    var affectedOpcosList := OpcoCodes(Attr(change.attrs, cfg.opcoAttr));
    if affectedOpcosList.None? {
      return true;  // `.length` of undefined or null throws
    }
    var affectedOpcos := ResolveAffectedOpcos(opcoTopoData, affectedOpcosList.value);

    var affectedServicesString := Attr(change.attrs, cfg.servicesAttr);
    if !Truthy(affectedServicesString) || Length(affectedServicesString.value) == 0 {
      return false;
    }
    if !affectedServicesString.value.Str? {
      return true;  // split of an array throws
    }
    assert p == Ready(n, uid, affectedOpcos, affectedServicesString.value.s);
    SendChange(cfg, lookup, uid, affectedOpcos, affectedServicesString.value.s, change, log);
    return false;
  }

  /** The sending stage of one change that reached it: tags, the vertex, then its relations. */
  method SendChange(cfg: Config, lookup: string -> seq<Element>, uid: string, affectedOpcos: seq<string>,
                    affectedServicesString: string, change: ChangeRecord, log: EventLog)
    requires "tags" in change.attrs && change.attrs["tags"] == StrList([ChangeEntityType])
    modifies change, log
    ensures log.calls == old(log.calls) + Emit(cfg, lookup, old(change.attrs), uid, affectedOpcos, affectedServicesString).calls
    ensures change.attrs == Emit(cfg, lookup, old(change.attrs), uid, affectedOpcos, affectedServicesString).final
  {
    ghost var o := Emit(cfg, lookup, change.attrs, uid, affectedOpcos, affectedServicesString);
    ghost var calls0 := log.calls;
    var affectedServices := Tokens(cfg, affectedServicesString);
    PushTags(change, affectedServices);
    assert change.attrs == o.final;
    var sent := log.Send(cfg.resourcesEp, Vertex(change.attrs));
    ghost var rest;
    if IsBroadcast(cfg, affectedServices) {
      rest := BroadcastCalls(cfg, uid, affectedOpcos);
      LinkOpcos(cfg, uid, affectedOpcos, log);
    } else {
      rest := TargetedCalls(cfg, lookup, uid, Attr(change.attrs, cfg.statusAttr), affectedOpcos, affectedServices);
      LinkServices(cfg, lookup, uid, Attr(change.attrs, cfg.statusAttr), affectedOpcos, affectedServices, log);
    }
    assert o.calls == [Call(cfg.resourcesEp, Vertex(o.final))] + rest;
    AppendAssoc(calls0, [Call(cfg.resourcesEp, Vertex(o.final))], rest);
  }

  /**
   * Change i of the array, processed at `clock(i)` when no earlier change threw:
   * the body of the loop over the changes, which extends the pass by one outcome.
   */
  method ProcessAt(cfg: Config, env: Env, opcoTopoData: map<string, string>, changeData: seq<ChangeRecord>, i: nat,
                   log: EventLog, ghost raws: seq<Record>, ghost outs: seq<ChangeOutcome>, ghost start: seq<Call>)
    returns (stop: bool)
    requires i < |changeData| == |raws| && changeData[i].attrs == raws[i]
    requires |outs| == |raws| && forall k :: 0 <= k < |raws| ==> OutcomeIs(cfg, env, opcoTopoData, raws, outs, k)
    requires !Fold(outs[..i]).aborted && log.calls == start + Fold(outs[..i]).calls
    modifies changeData[i], log
    ensures log.calls == start + Fold(outs[..i + 1]).calls
    ensures stop == Fold(outs[..i + 1]).aborted
    ensures changeData[i].attrs == outs[i].final
  {
    assert OutcomeIs(cfg, env, opcoTopoData, raws, outs, i);
    FoldStep(outs, i);
    ghost var calls := log.calls;
    stop := ProcessChangeObject(cfg, env, opcoTopoData, changeData[i], env.clock(i), log);
    assert log.calls == calls + outs[i].calls;
    AppendAssoc(start, Fold(outs[..i]).calls, outs[i].calls);
  }

  /**
   * prepareAndSendChangeData over distinct change objects (as JSON.parse makes
   * them); `aborted` is whether an exception escaped, which ends the pass.
   */
  method PrepareAndSendChangeData(cfg: Config, env: Env, opcoTopoData: map<string, string>,
                                  changeData: seq<ChangeRecord>, log: EventLog) returns (aborted: bool)
    requires forall i, j :: 0 <= i < j < |changeData| ==> changeData[i] != changeData[j]
    modifies changeData, log
    ensures log.calls == old(log.calls) + Run(cfg, env, opcoTopoData, old(Snapshot(changeData))).calls
    ensures aborted == Run(cfg, env, opcoTopoData, old(Snapshot(changeData))).aborted
    ensures forall i :: 0 <= i < |changeData| ==>
      changeData[i].attrs ==
        if Reached(cfg, env, opcoTopoData, old(Snapshot(changeData)), i)
        then Outcomes(cfg, env, opcoTopoData, old(Snapshot(changeData)))[i].final
        else old(Snapshot(changeData))[i]
  {
    ghost var raws := Snapshot(changeData);
    ghost var outs := Outcomes(cfg, env, opcoTopoData, raws);
    forall k | 0 <= k < |raws| ensures OutcomeIs(cfg, env, opcoTopoData, raws, outs, k) {
      OutcomeAt(cfg, env, opcoTopoData, raws, k);
    }
    ghost var stop;
    aborted, stop := ProcessEach(cfg, env, opcoTopoData, changeData, log, raws, outs);
    StoppedAt(outs, stop);
    forall k | 0 <= k < |changeData|
      ensures changeData[k].attrs ==
        if Reached(cfg, env, opcoTopoData, raws, k) then outs[k].final else raws[k]
    {
      ReachedIff(outs, stop, k);
    }
  }

  /**
   * The loop over the changes, which leaves it after the first change that
   * throws; `stop` is the number of changes it processed.
   */
  method ProcessEach(cfg: Config, env: Env, opcoTopoData: map<string, string>, changeData: seq<ChangeRecord>,
                     log: EventLog, ghost raws: seq<Record>, ghost outs: seq<ChangeOutcome>)
    returns (aborted: bool, ghost stop: nat)
    requires forall i, j :: 0 <= i < j < |changeData| ==> changeData[i] != changeData[j]
    requires |raws| == |changeData| && forall j :: 0 <= j < |changeData| ==> changeData[j].attrs == raws[j]
    requires |outs| == |raws| && forall k :: 0 <= k < |raws| ==> OutcomeIs(cfg, env, opcoTopoData, raws, outs, k)
    modifies changeData, log
    ensures stop <= |outs| && (Fold(outs[..stop]).aborted || stop == |outs|)
    ensures stop > 0 ==> !Fold(outs[..stop - 1]).aborted
    ensures aborted == Fold(outs[..stop]).aborted
    ensures log.calls == old(log.calls) + Fold(outs[..stop]).calls
    ensures forall j :: 0 <= j < stop ==> changeData[j].attrs == outs[j].final
    ensures forall j :: stop <= j < |changeData| ==> changeData[j].attrs == raws[j]
  {
    assert outs[..0] == [];
    aborted := false;
    var i := 0;
    ghost var last := 0;
    while i < |changeData| && !aborted
      invariant 0 <= i <= |changeData|
      invariant Fold(outs[..i]).aborted == aborted
      invariant i > 0 ==> last + 1 == i && !Fold(outs[..last]).aborted
      invariant log.calls == old(log.calls) + Fold(outs[..i]).calls
      invariant forall j :: 0 <= j < i ==> changeData[j].attrs == outs[j].final
      invariant forall j :: i <= j < |changeData| ==> changeData[j].attrs == raws[j]
    {
      label before:
      aborted := ProcessAt(cfg, env, opcoTopoData, changeData, i, log, raws, outs, old(log.calls));
      assert forall j :: 0 <= j < |changeData| && j != i ==> changeData[j].attrs == old@before(changeData[j].attrs);
      last, i := i, i + 1;
    }
    assert i > 0 ==> outs[..i - 1] == outs[..last];
    stop := i;
  }
}
