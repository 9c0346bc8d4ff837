/**
 * What the reconciliation engine promises about the calls it makes: which
 * changes emit nothing, the vertex-first shape of an emitting change, the
 * broadcast and targeted cases, the sink framing of every call, and how a
 * throwing change ends the pass.
 */
module EngineFacts {
  import opened Wrappers
  import opened JsStrings
  import opened Values
  import opened Settings
  import opened Normalizer
  import opened OrgIndex
  import opened Sink
  import opened Engine

  /**
   * Every call is a `has` relation to the change on the references endpoint,
   * or an element update on an endpoint under the topology endpoint.
   */
  predicate LinksTo(cfg: Config, calls: seq<Call>, uid: string) {
    forall k :: 0 <= k < |calls| ==> IsLink(cfg, calls[k], uid)
  }

  predicate IsLink(cfg: Config, c: Call, uid: string) {
    match c.payload
    case Relation(_, to, edgeType) => to == uid && edgeType == HasEdgeType && c.endpoint == cfg.referencesEp
    case ElementUpdate(_, _, _, _) => StartsWith(c.endpoint, cfg.topoEp)
    case Vertex(_) => false
  }

  lemma LinksToConcat(cfg: Config, a: seq<Call>, b: seq<Call>, uid: string)
    requires LinksTo(cfg, a, uid) && LinksTo(cfg, b, uid)
    ensures LinksTo(cfg, a + b, uid)
  {
    forall k | 0 <= k < |a + b| ensures IsLink(cfg, (a + b)[k], uid) {
      if k < |a| {
        assert (a + b)[k] == a[k];
      } else {
        assert (a + b)[k] == b[k - |a|];
      }
    }
  }

  lemma {:induction false} BroadcastLinks(cfg: Config, uid: string, opcos: seq<string>)
    ensures LinksTo(cfg, BroadcastCalls(cfg, uid, opcos), uid)
    decreases |opcos|
  {
    if opcos != [] {
      BroadcastLinks(cfg, uid, opcos[..|opcos| - 1]);
      var last := opcos[|opcos| - 1];
      LinksToConcat(cfg, BroadcastCalls(cfg, uid, opcos[..|opcos| - 1]),
                    if last != "" then [RelationCall(cfg, last, uid)] else [], uid);
    }
  }

  lemma {:induction false} ElementLinks(cfg: Config, uid: string, status: Option<Value>, opcos: seq<string>, es: seq<Element>)
    ensures LinksTo(cfg, ElementCalls(cfg, uid, status, opcos, es), uid)
    decreases |es|
  {
    if es != [] {
      var e := es[|es| - 1];
      ElementLinks(cfg, uid, status, opcos, es[..|es| - 1]);
      var endpoint := cfg.topoEp + "/" + e.id;
      assert endpoint[..|cfg.topoEp|] == cfg.topoEp;
      LinksToConcat(cfg, ElementCalls(cfg, uid, status, opcos, es[..|es| - 1]),
                    if Eligible(e, opcos) then [UpdateCall(cfg, e, status), RelationCall(cfg, e.uniqueId, uid)] else [], uid);
    }
  }

  lemma {:induction false} TargetedLinks(cfg: Config, lookup: string -> seq<Element>, uid: string, status: Option<Value>,
                                         opcos: seq<string>, tokens: seq<string>)
    ensures LinksTo(cfg, TargetedCalls(cfg, lookup, uid, status, opcos, tokens), uid)
    decreases |tokens|
  {
    if tokens != [] {
      var t := tokens[|tokens| - 1];
      TargetedLinks(cfg, lookup, uid, status, opcos, tokens[..|tokens| - 1]);
      ElementLinks(cfg, uid, status, opcos, lookup(t));
      LinksToConcat(cfg, TargetedCalls(cfg, lookup, uid, status, opcos, tokens[..|tokens| - 1]),
                    if t != "" then ElementCalls(cfg, uid, status, opcos, lookup(t)) else [], uid);
    }
  }

  // ---------------------------------------------------------------------------
  // The broadcast case
  // ---------------------------------------------------------------------------

  /** One relation per organisation id, in order, when none of them is blank. */
  lemma {:induction false} BroadcastIsOnePerOpco(cfg: Config, uid: string, opcos: seq<string>)
    requires forall o :: o in opcos ==> o != ""
    ensures |BroadcastCalls(cfg, uid, opcos)| == |opcos|
    ensures forall k :: 0 <= k < |opcos| ==> BroadcastCalls(cfg, uid, opcos)[k] == RelationCall(cfg, opcos[k], uid)
    decreases |opcos|
  {
    if opcos != [] {
      var init := opcos[..|opcos| - 1];
      assert forall o :: o in init ==> o in opcos;
      BroadcastIsOnePerOpco(cfg, uid, init);
      assert opcos[|opcos| - 1] in opcos;
    }
  }

  // ---------------------------------------------------------------------------
  // The targeted case
  // ---------------------------------------------------------------------------

  /** The elements of one service that the element loop links, in order. */
  function Eligibles(es: seq<Element>, opcos: seq<string>): (r: seq<Element>)
    ensures |r| <= |es|
    ensures forall e :: e in r <==> e in es && Eligible(e, opcos)
  {
    if es == [] then []
    else
      var init := es[..|es| - 1];
      var e := es[|es| - 1];
      assert forall x :: x in es <==> x in init || x == e;
      Eligibles(init, opcos) + (if Eligible(e, opcos) then [e] else [])
  }

  /**
   * The element loop emits exactly two calls per linked element, in element
   * order: the update of the element, then its relation to the change.
   */
  lemma {:induction false} ElementCallsArePairs(cfg: Config, uid: string, status: Option<Value>, opcos: seq<string>, es: seq<Element>)
    ensures |ElementCalls(cfg, uid, status, opcos, es)| == 2 * |Eligibles(es, opcos)|
    ensures forall k :: 0 <= k < |Eligibles(es, opcos)| ==>
      ElementCalls(cfg, uid, status, opcos, es)[2 * k] == UpdateCall(cfg, Eligibles(es, opcos)[k], status) &&
      ElementCalls(cfg, uid, status, opcos, es)[2 * k + 1] == RelationCall(cfg, Eligibles(es, opcos)[k].uniqueId, uid)
    decreases |es|
  {
    if es != [] {
      var init := es[..|es| - 1];
      var e := es[|es| - 1];
      ElementCallsArePairs(cfg, uid, status, opcos, init);
      var prev := ElementCalls(cfg, uid, status, opcos, init);
      var el := Eligibles(init, opcos);
      if Eligible(e, opcos) {
        var calls := ElementCalls(cfg, uid, status, opcos, es);
        assert calls == prev + [UpdateCall(cfg, e, status), RelationCall(cfg, e.uniqueId, uid)];
        assert Eligibles(es, opcos) == el + [e];
        forall k | 0 <= k < |el| + 1
          ensures calls[2 * k] == UpdateCall(cfg, (el + [e])[k], status)
          ensures calls[2 * k + 1] == RelationCall(cfg, (el + [e])[k].uniqueId, uid)
        {
          if k < |el| {
            assert calls[2 * k] == prev[2 * k];
            assert calls[2 * k + 1] == prev[2 * k + 1];
          }
        }
      } else {
        assert ElementCalls(cfg, uid, status, opcos, es) == prev + [];
        assert Eligibles(es, opcos) == el + [];
      }
    }
  }

  /** Blank tokens contribute nothing: only the non-empty services are looked up. */
  lemma {:induction false} TargetedIgnoresBlankTokens(cfg: Config, lookup: string -> seq<Element>, uid: string,
                                                      status: Option<Value>, opcos: seq<string>, tokens: seq<string>)
    ensures TargetedCalls(cfg, lookup, uid, status, opcos, tokens) == TargetedCalls(cfg, lookup, uid, status, opcos, NonEmpty(tokens))
    decreases |tokens|
  {
    if tokens != [] {
      var init := tokens[..|tokens| - 1];
      var t := tokens[|tokens| - 1];
      TargetedIgnoresBlankTokens(cfg, lookup, uid, status, opcos, init);
      var ne := NonEmpty(init);
      if t != "" {
        assert NonEmpty(tokens) == ne + [t];
        assert (ne + [t])[..|ne + [t]| - 1] == ne;
      } else {
        assert NonEmpty(tokens) == ne + [];
        assert ne + [] == ne;
      }
    }
  }

  /** The targeted calls of services looked up one after another are the concatenation of each service's calls. */
  lemma {:induction false} TargetedConcat(cfg: Config, lookup: string -> seq<Element>, uid: string,
                                          status: Option<Value>, opcos: seq<string>, a: seq<string>, b: seq<string>)
    ensures TargetedCalls(cfg, lookup, uid, status, opcos, a + b)
         == TargetedCalls(cfg, lookup, uid, status, opcos, a) + TargetedCalls(cfg, lookup, uid, status, opcos, b)
    decreases |b|
  {
    if b == [] {
      assert a + b == a;
    } else {
      var init := b[..|b| - 1];
      var t := b[|b| - 1];
      var step := if t != "" then ElementCalls(cfg, uid, status, opcos, lookup(t)) else [];
      assert (a + b)[..|a + b| - 1] == a + init;
      assert (a + b)[|a + b| - 1] == t;
      assert TargetedCalls(cfg, lookup, uid, status, opcos, a + b) == TargetedCalls(cfg, lookup, uid, status, opcos, a + init) + step;
      assert TargetedCalls(cfg, lookup, uid, status, opcos, b) == TargetedCalls(cfg, lookup, uid, status, opcos, init) + step;
      TargetedConcat(cfg, lookup, uid, status, opcos, a, init);
      AppendAssoc(TargetedCalls(cfg, lookup, uid, status, opcos, a), TargetedCalls(cfg, lookup, uid, status, opcos, init), step);
    }
  }

  // ---------------------------------------------------------------------------
  // One change
  // ---------------------------------------------------------------------------

  /** Before the sending stage nothing is sent. */
  lemma HaltEmitsNothing(cfg: Config, env: Env, index: map<string, string>, raw: Record, nowMs: int)
    requires Prepare(cfg, env, index, raw, nowMs).Halt?
    ensures ProcessChange(cfg, env, index, raw, nowMs).calls == []
    ensures ProcessChange(cfg, env, index, raw, nowMs).aborted == Prepare(cfg, env, index, raw, nowMs).aborted
    ensures ProcessChange(cfg, env, index, raw, nowMs).final == Prepare(cfg, env, index, raw, nowMs).final
  {
  }

  /** A change that reaches the sending stage is processed by `Emit`. */
  lemma ReadyEmits(cfg: Config, env: Env, index: map<string, string>, raw: Record, nowMs: int)
    requires Prepare(cfg, env, index, raw, nowMs).Ready?
    ensures var p := Prepare(cfg, env, index, raw, nowMs);
            ProcessChange(cfg, env, index, raw, nowMs) == Emit(cfg, env.lookup, p.named, p.uid, p.opcos, p.services)
  {
  }

  /** The sending stage never throws and always sends the vertex first. */
  lemma EmitVertexFirst(cfg: Config, lookup: string -> seq<Element>, n: Record, uid: string, opcos: seq<string>, services: string)
    ensures var o := Emit(cfg, lookup, n, uid, opcos, services);
            !o.aborted && |o.calls| >= 1 &&
            o.calls[0] == Call(cfg.resourcesEp, Vertex(o.final)) &&
            o.final == n["tags" := StrList([ChangeEntityType] + NonEmpty(Tokens(cfg, services)))] &&
            LinksTo(cfg, o.calls[1..], uid)
  {
    var o := Emit(cfg, lookup, n, uid, opcos, services);
    var tokens := Tokens(cfg, services);
    if IsBroadcast(cfg, tokens) {
      BroadcastLinks(cfg, uid, opcos);
      assert o.calls[1..] == BroadcastCalls(cfg, uid, opcos);
    } else {
      TargetedLinks(cfg, lookup, uid, Attr(o.final, cfg.statusAttr), opcos, tokens);
      assert o.calls[1..] == TargetedCalls(cfg, lookup, uid, Attr(o.final, cfg.statusAttr), opcos, tokens);
    }
  }

  /** A change that throws does so before its first send. */
  lemma AbortEmitsNothing(cfg: Config, env: Env, index: map<string, string>, raw: Record, nowMs: int)
    ensures ProcessChange(cfg, env, index, raw, nowMs).aborted ==> ProcessChange(cfg, env, index, raw, nowMs).calls == []
  {
    var p := Prepare(cfg, env, index, raw, nowMs);
    if p.Ready? {
      ReadyEmits(cfg, env, index, raw, nowMs);
      EmitVertexFirst(cfg, env.lookup, p.named, p.uid, p.opcos, p.services);
    } else {
      HaltEmitsNothing(cfg, env, index, raw, nowMs);
    }
  }

  /**
   * The skip paths: a change whose beautification throws, whose status is not
   * of interest, whose title is falsy, or whose services are falsy stops
   * before the sending stage. Normalisation happens before the status filter,
   * so a skipped change still carries its id.
   */
  lemma PrepareSkips(cfg: Config, env: Env, index: map<string, string>, raw: Record, nowMs: int)
    ensures var n := Normalized(cfg, env.parseDate, raw, nowMs);
            var p := Prepare(cfg, env, index, raw, nowMs);
            (n.None? ==> p == Halt(true, raw)) &&
            (n.Some? && !OfInterest(cfg, n.value) ==> p == Halt(false, n.value)) &&
            (n.Some? && OfInterest(cfg, n.value) && !Truthy(Attr(n.value, cfg.titleAttr)) ==> p == Halt(false, n.value)) &&
            (n.Some? && cfg.servicesAttr != "name" && cfg.servicesAttr != "tags" && !Truthy(Attr(n.value, cfg.servicesAttr)) ==> p.Halt?)
  {
    var n := Normalized(cfg, env.parseDate, raw, nowMs);
    PrepareStages(cfg, env, index, raw, nowMs);
    if n.Some? && OfInterest(cfg, n.value) {
      ProceedTitleSkips(cfg, index, n.value, n.value["uniqueId"].s);
    }
  }

  /** `Prepare` is normalisation, then the status filter, then the title stage. */
  lemma PrepareStages(cfg: Config, env: Env, index: map<string, string>, raw: Record, nowMs: int)
    ensures var n := Normalized(cfg, env.parseDate, raw, nowMs);
            Prepare(cfg, env, index, raw, nowMs) ==
              if n.None? then Halt(true, raw)
              else if !OfInterest(cfg, n.value) then Halt(false, n.value)
              else ProceedTitle(cfg, index, n.value, n.value["uniqueId"].s)
  {
  }

  lemma ProceedTitleSkips(cfg: Config, index: map<string, string>, c: Record, uid: string)
    ensures !Truthy(Attr(c, cfg.titleAttr)) ==> ProceedTitle(cfg, index, c, uid) == Halt(false, c)
    ensures cfg.servicesAttr != "name" && cfg.servicesAttr != "tags" && !Truthy(Attr(c, cfg.servicesAttr)) ==>
      ProceedTitle(cfg, index, c, uid).Halt?
  {
    var t := Attr(c, cfg.titleAttr);
    if t.Some? && t.value.Str? && t.value.s != "" {
      var n := c["name" := Str(TitleName(t.value.s))]["tags" := StrList([ChangeEntityType])];
      if cfg.servicesAttr != "name" && cfg.servicesAttr != "tags" {
        assert Attr(n, cfg.servicesAttr) == Attr(c, cfg.servicesAttr);
      }
    }
  }

  /** Only the status attribute decides whether a change is of interest. */
  lemma OfInterestFrame(cfg: Config, c: Record, k: string, v: Value)
    requires k != cfg.statusAttr
    ensures OfInterest(cfg, c[k := v]) == OfInterest(cfg, c)
  {
    assert Attr(c[k := v], cfg.statusAttr) == Attr(c, cfg.statusAttr);
  }

  /**
   * Normalisation keeps the status, unless the status attribute is one that
   * normalisation writes: so the raw change decides the status filter.
   */
  lemma RawStatusDecides(cfg: Config, env: Env, raw: Record, nowMs: int)
    requires cfg.statusAttr != cfg.servicesAttr
    requires cfg.statusAttr != "uniqueId" && cfg.statusAttr != "entityTypes" && cfg.statusAttr != "matchTokens"
    requires Normalized(cfg, env.parseDate, raw, nowMs).Some?
    ensures OfInterest(cfg, Normalized(cfg, env.parseDate, raw, nowMs).value) == OfInterest(cfg, raw)
  {
    var n := Normalized(cfg, env.parseDate, raw, nowMs).value;
    if cfg.statusAttr in raw {
      assert n[cfg.statusAttr] == Beautified(cfg, raw).value[cfg.statusAttr] == raw[cfg.statusAttr];
    }
    assert Attr(n, cfg.statusAttr) == Attr(raw, cfg.statusAttr);
  }

  /** A raw change whose status is not of interest sends nothing and does not throw, unless its services are a list. */
  lemma RawStatusSkips(cfg: Config, env: Env, index: map<string, string>, raw: Record, nowMs: int)
    requires cfg.statusAttr != cfg.servicesAttr
    requires cfg.statusAttr != "uniqueId" && cfg.statusAttr != "entityTypes" && cfg.statusAttr != "matchTokens"
    requires !OfInterest(cfg, raw)
    ensures ProcessChange(cfg, env, index, raw, nowMs).calls == []
    ensures ProcessChange(cfg, env, index, raw, nowMs).aborted <==> cfg.servicesAttr in raw && raw[cfg.servicesAttr].StrList?
  {
    if Normalized(cfg, env.parseDate, raw, nowMs).Some? {
      RawStatusDecides(cfg, env, raw, nowMs);
    }
    SkipsEmitNothing(cfg, env, index, raw, nowMs);
  }

  /** Every skip path emits nothing. */
  lemma SkipsEmitNothing(cfg: Config, env: Env, index: map<string, string>, raw: Record, nowMs: int)
    ensures var n := Normalized(cfg, env.parseDate, raw, nowMs);
            var o := ProcessChange(cfg, env, index, raw, nowMs);
            (n.None? ==> o.calls == [] && o.aborted && o.final == raw) &&
            (n.Some? && !OfInterest(cfg, n.value) ==> o.calls == [] && !o.aborted && o.final == n.value) &&
            (n.Some? && OfInterest(cfg, n.value) && !Truthy(Attr(n.value, cfg.titleAttr)) ==>
               o.calls == [] && !o.aborted && o.final == n.value) &&
            (n.Some? && cfg.servicesAttr != "name" && cfg.servicesAttr != "tags" && !Truthy(Attr(n.value, cfg.servicesAttr)) ==>
               o.calls == [])
  {
    PrepareSkips(cfg, env, index, raw, nowMs);
    if Prepare(cfg, env, index, raw, nowMs).Halt? {
      HaltEmitsNothing(cfg, env, index, raw, nowMs);
    }
  }

  /** What reaching the sending stage requires of a change. */
  lemma ReadyMeansQualified(cfg: Config, env: Env, index: map<string, string>, raw: Record, nowMs: int)
    requires Prepare(cfg, env, index, raw, nowMs).Ready?
    ensures var n := Normalized(cfg, env.parseDate, raw, nowMs);
            var p := Prepare(cfg, env, index, raw, nowMs);
            n.Some? && OfInterest(cfg, n.value) && Truthy(Attr(n.value, cfg.titleAttr)) &&
            p.uid == n.value["uniqueId"].s &&
            Attr(p.named, cfg.servicesAttr) == Some(Str(p.services)) && p.services != "" &&
            OpcoCodes(Attr(p.named, cfg.opcoAttr)).Some? &&
            p.opcos == Resolve(index, OpcoCodes(Attr(p.named, cfg.opcoAttr)).value)
  {
    var n := Normalized(cfg, env.parseDate, raw, nowMs);
    PrepareStages(cfg, env, index, raw, nowMs);
    ProceedTitleReady(cfg, index, n.value, n.value["uniqueId"].s);
  }

  /** The title stage reaches the sending stage only with a title, services and an organisation list. */
  lemma ProceedTitleReady(cfg: Config, index: map<string, string>, c: Record, uid: string)
    requires ProceedTitle(cfg, index, c, uid).Ready?
    ensures var p := ProceedTitle(cfg, index, c, uid);
            Truthy(Attr(c, cfg.titleAttr)) && Attr(c, cfg.titleAttr).value.Str? && p.uid == uid &&
            p.named == c["name" := Str(TitleName(Attr(c, cfg.titleAttr).value.s))]["tags" := StrList([ChangeEntityType])] &&
            Attr(p.named, cfg.servicesAttr) == Some(Str(p.services)) && p.services != "" &&
            OpcoCodes(Attr(p.named, cfg.opcoAttr)).Some? &&
            p.opcos == Resolve(index, OpcoCodes(Attr(p.named, cfg.opcoAttr)).value)
  {
  }

  /** A change emits something exactly when it reaches the sending stage. */
  lemma EmitsIffReady(cfg: Config, env: Env, index: map<string, string>, raw: Record, nowMs: int)
    ensures ProcessChange(cfg, env, index, raw, nowMs).calls != [] <==> Prepare(cfg, env, index, raw, nowMs).Ready?
  {
    var p := Prepare(cfg, env, index, raw, nowMs);
    if p.Ready? {
      ReadyEmits(cfg, env, index, raw, nowMs);
      EmitVertexFirst(cfg, env.lookup, p.named, p.uid, p.opcos, p.services);
    } else {
      HaltEmitsNothing(cfg, env, index, raw, nowMs);
    }
  }

  /**
   * An emitting change sends exactly one vertex, first, carrying the change
   * with its tags, id, entity types and match tokens; every later call links
   * something to that id.
   */
  lemma VertexFirst(cfg: Config, env: Env, index: map<string, string>, raw: Record, nowMs: int)
    requires Prepare(cfg, env, index, raw, nowMs).Ready?
    ensures var p := Prepare(cfg, env, index, raw, nowMs);
            var o := ProcessChange(cfg, env, index, raw, nowMs);
            !o.aborted && |o.calls| >= 1 &&
            o.calls[0] == Call(cfg.resourcesEp, Vertex(o.final)) &&
            Attr(o.final, "tags") == Some(StrList([ChangeEntityType] + NonEmpty(Tokens(cfg, p.services)))) &&
            Attr(o.final, "uniqueId") == Some(Str(p.uid)) &&
            Attr(o.final, "entityTypes") == Some(StrList([ChangeEntityType])) &&
            Attr(o.final, "matchTokens") == Some(StrList([p.uid])) &&
            LinksTo(cfg, o.calls[1..], p.uid)
  {
    var p := Prepare(cfg, env, index, raw, nowMs);
    ReadyMeansQualified(cfg, env, index, raw, nowMs);
    ReadyEmits(cfg, env, index, raw, nowMs);
    EmitVertexFirst(cfg, env.lookup, p.named, p.uid, p.opcos, p.services);
    NamedKeepsTopoProperties(cfg, env, index, raw, nowMs);
  }

  /** Naming and tagging leave the topology properties in place. */
  lemma NamedKeepsTopoProperties(cfg: Config, env: Env, index: map<string, string>, raw: Record, nowMs: int)
    requires Prepare(cfg, env, index, raw, nowMs).Ready?
    ensures var p := Prepare(cfg, env, index, raw, nowMs);
            Attr(p.named, "uniqueId") == Some(Str(p.uid)) &&
            Attr(p.named, "entityTypes") == Some(StrList([ChangeEntityType])) &&
            Attr(p.named, "matchTokens") == Some(StrList([p.uid]))
  {
    var n := Normalized(cfg, env.parseDate, raw, nowMs);
    PrepareStages(cfg, env, index, raw, nowMs);
    ProceedTitleReady(cfg, index, n.value, n.value["uniqueId"].s);
  }

  /** The broadcast case of the sending stage. */
  lemma EmitBroadcast(cfg: Config, lookup: string -> seq<Element>, n: Record, uid: string, opcos: seq<string>, services: string)
    requires IsBroadcast(cfg, Tokens(cfg, services))
    requires forall o :: o in opcos ==> o != ""
    ensures var o := Emit(cfg, lookup, n, uid, opcos, services);
            |o.calls| == 1 + |opcos| &&
            forall k :: 0 <= k < |opcos| ==> o.calls[1 + k] == Call(cfg.referencesEp, Relation(opcos[k], uid, HasEdgeType))
  {
    var o := Emit(cfg, lookup, n, uid, opcos, services);
    var rest := BroadcastCalls(cfg, uid, opcos);
    assert o.calls == [Call(cfg.resourcesEp, Vertex(o.final))] + rest;
    BroadcastIsOnePerOpco(cfg, uid, opcos);
    AfterHead(Call(cfg.resourcesEp, Vertex(o.final)), rest);
  }

  lemma AfterHead<T>(x: T, s: seq<T>)
    ensures |[x] + s| == 1 + |s|
    ensures forall k :: 0 <= k < |s| ==> ([x] + s)[1 + k] == s[k]
  {
  }

  /**
   * The broadcast case: after the vertex, exactly one organisation-to-change
   * relation per resolved organisation, in order, and no element update.
   */
  lemma BroadcastCase(cfg: Config, env: Env, index: map<string, string>, raw: Record, nowMs: int)
    requires Prepare(cfg, env, index, raw, nowMs).Ready?
    requires IsBroadcast(cfg, Tokens(cfg, Prepare(cfg, env, index, raw, nowMs).services))
    ensures var p := Prepare(cfg, env, index, raw, nowMs);
            var o := ProcessChange(cfg, env, index, raw, nowMs);
            |o.calls| == 1 + |p.opcos| &&
            forall k :: 0 <= k < |p.opcos| ==> o.calls[1 + k] == Call(cfg.referencesEp, Relation(p.opcos[k], p.uid, HasEdgeType))
  {
    var p := Prepare(cfg, env, index, raw, nowMs);
    ReadyMeansQualified(cfg, env, index, raw, nowMs);
    ReadyEmits(cfg, env, index, raw, nowMs);
    EmitBroadcast(cfg, env.lookup, p.named, p.uid, p.opcos, p.services);
  }

  /** The targeted case of the sending stage. */
  lemma EmitTargeted(cfg: Config, lookup: string -> seq<Element>, n: Record, uid: string, opcos: seq<string>, services: string)
    requires !IsBroadcast(cfg, Tokens(cfg, services))
    ensures var o := Emit(cfg, lookup, n, uid, opcos, services);
            o.calls[1..] == TargetedCalls(cfg, lookup, uid, Attr(o.final, cfg.statusAttr), opcos, NonEmpty(Tokens(cfg, services)))
  {
    var o := Emit(cfg, lookup, n, uid, opcos, services);
    var tokens := Tokens(cfg, services);
    TargetedIgnoresBlankTokens(cfg, lookup, uid, Attr(o.final, cfg.statusAttr), opcos, tokens);
    assert o.calls[1..] == TargetedCalls(cfg, lookup, uid, Attr(o.final, cfg.statusAttr), opcos, tokens);
  }

  /**
   * The targeted case: after the vertex, the element calls of each non-empty
   * service in turn, the status sent being the change's own.
   */
  lemma TargetedCase(cfg: Config, env: Env, index: map<string, string>, raw: Record, nowMs: int)
    requires Prepare(cfg, env, index, raw, nowMs).Ready?
    requires !IsBroadcast(cfg, Tokens(cfg, Prepare(cfg, env, index, raw, nowMs).services))
    ensures var p := Prepare(cfg, env, index, raw, nowMs);
            var o := ProcessChange(cfg, env, index, raw, nowMs);
            o.calls[1..] == TargetedCalls(cfg, env.lookup, p.uid, Attr(o.final, cfg.statusAttr), p.opcos,
                                          NonEmpty(Tokens(cfg, p.services)))
  {
    var p := Prepare(cfg, env, index, raw, nowMs);
    ReadyEmits(cfg, env, index, raw, nowMs);
    EmitTargeted(cfg, env.lookup, p.named, p.uid, p.opcos, p.services);
  }

  /**
   * Sink framing of the engine's calls: when the references endpoint is
   * neither the resources endpoint nor under the topology endpoint, every
   * relation is written as an edge line and every other call as a vertex line.
   */
  lemma EngineFraming(cfg: Config, env: Env, index: map<string, string>, raw: Record, nowMs: int)
    requires cfg.referencesEp != cfg.resourcesEp && !StartsWith(cfg.referencesEp, cfg.topoEp)
    ensures forall c :: c in ProcessChange(cfg, env, index, raw, nowMs).calls ==>
      Classify(cfg, c.endpoint) == Some(if c.payload.Relation? then EdgeLine else VertexLine)
  {
    var p := Prepare(cfg, env, index, raw, nowMs);
    if p.Ready? {
      var o := ProcessChange(cfg, env, index, raw, nowMs);
      ReadyEmits(cfg, env, index, raw, nowMs);
      EmitVertexFirst(cfg, env.lookup, p.named, p.uid, p.opcos, p.services);
      CallsFramed(cfg, o.calls, p.uid);
    } else {
      HaltEmitsNothing(cfg, env, index, raw, nowMs);
    }
  }

  /** A vertex written to the resources endpoint followed by links is framed line by line. */
  lemma CallsFramed(cfg: Config, calls: seq<Call>, uid: string)
    requires cfg.referencesEp != cfg.resourcesEp && !StartsWith(cfg.referencesEp, cfg.topoEp)
    requires calls != [] && calls[0].endpoint == cfg.resourcesEp && !calls[0].payload.Relation?
    requires LinksTo(cfg, calls[1..], uid)
    ensures forall c :: c in calls ==> Classify(cfg, c.endpoint) == Some(if c.payload.Relation? then EdgeLine else VertexLine)
  {
    forall c | c in calls ensures Classify(cfg, c.endpoint) == Some(if c.payload.Relation? then EdgeLine else VertexLine) {
      var k :| 0 <= k < |calls| && calls[k] == c;
      if k > 0 {
        assert calls[1..][k - 1] == c;
        assert IsLink(cfg, c, uid);
      }
    }
  }

  // ---------------------------------------------------------------------------
  // The pass
  // ---------------------------------------------------------------------------

  /**
   * The first change that throws ends the pass: the pass emits what the
   * changes before it emitted and nothing more, and reports the abort.
   */
  lemma RunStopsAtAbort(cfg: Config, env: Env, index: map<string, string>, raws: seq<Record>, k: nat)
    requires k < |raws| && Reached(cfg, env, index, raws, k)
    requires ProcessChange(cfg, env, index, raws[k], env.clock(k)).aborted
    ensures Run(cfg, env, index, raws) == RunOutcome(Fold(Outcomes(cfg, env, index, raws)[..k]).calls, true)
  {
    var os := Outcomes(cfg, env, index, raws);
    OutcomeAt(cfg, env, index, raws, k);
    AbortEmitsNothing(cfg, env, index, raws[k], env.clock(k));
    FoldStep(os, k);
    assert Fold(os[..k]).calls + [] == Fold(os[..k]).calls;
    AbortIsFinal(os, k + 1);
  }

  /** Without an abort, the pass sends every change's calls, in change order. */
  lemma {:induction false} RunConcatenates(cfg: Config, env: Env, index: map<string, string>, raws: seq<Record>, i: nat)
    requires i < |raws| && Reached(cfg, env, index, raws, i + 1)
    ensures Fold(Outcomes(cfg, env, index, raws)[..i + 1]).calls
         == Fold(Outcomes(cfg, env, index, raws)[..i]).calls + ProcessChange(cfg, env, index, raws[i], env.clock(i)).calls
  {
    var os := Outcomes(cfg, env, index, raws);
    OutcomeAt(cfg, env, index, raws, i);
    PrefixesReached(os, i + 1);
    FoldStep(os, i);
  }
}
