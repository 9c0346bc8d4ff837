/**
 * Worked cases of the normaliser and the engine, with "|" as the separator.
 */
module Scenarios {
  import opened Wrappers
  import opened JsStrings
  import opened Values
  import opened Settings
  import opened Normalizer
  import opened Sink
  import opened Engine
  import opened EngineFacts

  /** Replacing a character that occurs once, between two parts free of it. */
  lemma ReplaceOnce(a: string, c: char, b: string, rep: string)
    requires c !in a && c !in b
    ensures ReplaceChar(a + [c] + b, c, rep) == a + rep + b
  {
    ReplaceCharConcat(a + [c], b, c, rep);
    ReplaceCharConcat(a, [c], c, rep);
    assert ReplaceChar(a, c, rep) == a && ReplaceChar(b, c, rep) == b;
    ReplaceSingle(c, rep);
  }

  lemma ReplaceSingle(c: char, rep: string)
    ensures ReplaceChar([c], c, rep) == rep
  {
    assert [c][1..] == [];
    assert rep + [] == rep;
  }

  /** Services "Foo|Bar" give the id "CHG_<seconds>_Foo_Bar". */
  lemma UidExample(e: Epoch, a: string, b: string)
    requires '|' !in a && '|' !in b
    ensures GenerateUid(e, a + "|" + b) == "CHG_" + EpochText(e) + "_" + a + "_" + b
  {
    ReplaceOnce(a, '|', b, "_");
    Regroup("CHG_" + EpochText(e), a, b);
  }

  lemma Regroup(pre: string, a: string, b: string)
    ensures pre + ("_" + (a + "_" + b)) == pre + "_" + a + "_" + b
  {
  }

  /** A revision tag after a space is removed: "ServiceA (v2)" becomes "ServiceA", whatever the separator. */
  lemma RevisionTagRemoved(sep: string)
    ensures BeautifyServices("ServiceA (v2)", sep) == "ServiceA"
  {
    assert "ServiceA (v2)" == "ServiceA" + " " + "(" + "v2" + ")" + "";
    BeautifyDropsGroup("ServiceA", " ", "v2", "", sep);
    assert BeautifyServices("", sep) == "";
  }

  /**
   * `;` and the newline become "|", the tab is deleted before the groups are
   * removed, and the group "(old)" then goes: "A;B\n C\t(old)" becomes "A|B| C".
   */
  lemma BeautifyExample()
    ensures BeautifyServices("A;B\n C\t(old)", "|") == "A|B| C"
  {
    ExampleParts();
    BeautifyShape("A", "B", " C", "old", "|");
  }

  lemma ExampleParts()
    ensures "A;B\n C\t(old)" == "A" + ";" + "B" + "\n" + " C" + "\t" + "(" + "old" + ")"
    ensures "A" + "|" + "B" + "|" + " C" == "A|B| C"
  {
  }

  /** Services `a;b\nc\t(x)`: both separators become `sep`, and the tab and the group go. */
  lemma BeautifyShape(a: string, b: string, c: string, x: string, sep: string)
    requires Plain(a) && Plain(b) && Plain(c)
    requires ';' !in x && '\n' !in x && '\t' !in x && ')' !in x
    requires '\n' !in sep && '\t' !in sep && '(' !in sep
    requires c != [] && !IsJsSpace(c[|c| - 1])
    ensures BeautifyServices(a + ";" + b + "\n" + c + "\t" + "(" + x + ")", sep) == a + sep + b + sep + c
  {
    var p, g, kept := a + ";" + b + "\n" + c + "\t", "(" + x + ")", a + sep + b + sep + c;
    UnifyWithGroup(a, b, c, x, sep);
    DropTrailingGroup(kept, x);
    Regroup3(p, "(", x, ")");
    BeautifyUnfold(p + g, sep, kept + g);
  }

  lemma BeautifyUnfold(s: string, sep: string, u: string)
    requires UnifySeparators(s, sep) == u
    ensures BeautifyServices(s, sep) == StripGroups(u)
  {
  }

  lemma UnifyWithGroup(a: string, b: string, c: string, x: string, sep: string)
    requires Plain(a) && Plain(b) && Plain(c)
    requires ';' !in x && '\n' !in x && '\t' !in x
    requires '\n' !in sep && '\t' !in sep
    ensures UnifySeparators(a + ";" + b + "\n" + c + "\t" + ("(" + x + ")"), sep) == a + sep + b + sep + c + ("(" + x + ")")
  {
    var g := "(" + x + ")";
    UnifyShape(a, b, c, sep);
    UnifyFixes(g, sep);
    UnifyAppend(a + ";" + b + "\n" + c + "\t", g, sep, a + sep + b + sep + c, g);
  }

  lemma Regroup3(p: string, u: string, v: string, w: string)
    ensures p + u + v + w == p + (u + v + w)
  {
  }

  /** The unified text `kept(x)` loses its final group. */
  lemma DropTrailingGroup(kept: string, x: string)
    requires '(' !in kept && kept != [] && !IsJsSpace(kept[|kept| - 1]) && ')' !in x
    ensures StripGroups(kept + ("(" + x + ")")) == kept
  {
    StripGroupsKeepsPrefix(kept, "(" + x + ")");
    GroupAlone(x);
    assert kept + [] == kept;
  }

  /** A lone group `(x)` is removed entirely. */
  lemma GroupAlone(x: string)
    requires ')' !in x
    ensures StripGroups("(" + x + ")") == ""
  {
    var g := "(" + x + ")";
    GroupAtFront("", x, "");
    assert "" + "(" + x + ")" + "" == g;
    StripGroupsSkip(g);
    assert g[|x| + 2..] == [];
  }

  /** `a;b\nc\t` unifies to `a sep b sep c`. */
  lemma UnifyShape(a: string, b: string, c: string, sep: string)
    requires Plain(a) && Plain(b) && Plain(c)
    requires '\n' !in sep && '\t' !in sep
    ensures UnifySeparators(a + ";" + b + "\n" + c + "\t", sep) == a + sep + b + sep + c
  {
    UnifyFixes(a, sep);
    UnifyFixes(b, sep);
    UnifyFixes(c, sep);
    UnifySemicolon(sep);
    UnifyNewline(sep);
    UnifyTab(sep);
    UnifyAppend(a, ";", sep, a, sep);
    UnifyAppend(a + ";", b, sep, a + sep, b);
    UnifyAppend(a + ";" + b, "\n", sep, a + sep + b, sep);
    UnifyAppend(a + ";" + b + "\n", c, sep, a + sep + b + sep, c);
    UnifyAppend(a + ";" + b + "\n" + c, "\t", sep, a + sep + b + sep + c, "");
    assert a + sep + b + sep + c + "" == a + sep + b + sep + c;
  }

  lemma UnifyAppend(p: string, q: string, sep: string, pu: string, qu: string)
    requires UnifySeparators(p, sep) == pu && UnifySeparators(q, sep) == qu
    ensures UnifySeparators(p + q, sep) == pu + qu
  {
    UnifyConcat(p, q, sep);
  }

  /** Text with no separator to unify and no `(`. */
  predicate Plain(s: string) {
    ';' !in s && '\n' !in s && '\t' !in s && '(' !in s
  }

  lemma UnifyFixes(s: string, sep: string)
    requires ';' !in s && '\n' !in s && '\t' !in s
    ensures UnifySeparators(s, sep) == s
  {
  }

  lemma UnifySemicolon(sep: string)
    requires '\n' !in sep && '\t' !in sep
    ensures UnifySeparators(";", sep) == sep
  {
    ReplaceSingle(';', sep);
  }

  lemma UnifyNewline(sep: string)
    requires '\t' !in sep
    ensures UnifySeparators("\n", sep) == sep
  {
    ReplaceSingle('\n', sep);
  }

  lemma UnifyTab(sep: string)
    ensures UnifySeparators("\t", sep) == ""
  {
    ReplaceSingle('\t', "");
  }

  /** The title is trimmed, and an inner tab becomes the text "undefined" (no replacement is passed). */
  lemma TitleTabBecomesUndefined(a: string, b: string)
    requires a != [] && b != [] && !IsJsSpace(a[0]) && !IsJsSpace(b[|b| - 1])
    requires '\t' !in a && '\t' !in b
    ensures TitleName(a + "\t" + b) == a + "undefined" + b
  {
    var t := a + "\t" + b;
    assert t[0] == a[0] && t[|t| - 1] == b[|b| - 1];
    TrimKeeps(t);
    ReplaceOnce(a, '\t', b, "undefined");
  }

  /** A text without "|" is one piece. */
  lemma {:induction false} SplitOne(x: string)
    requires '|' !in x
    ensures Split(x, "|") == [x]
    decreases |x|
  {
    if |x| >= 1 {
      assert x[..1] == [x[0]];
      assert x[0] in x;
      assert forall ch :: ch in x[1..] ==> ch in x;
      SplitOne(x[1..]);
      assert [x[0]] + x[1..] == x;
    }
  }

  /** Two "|"-free texts around one "|" are two pieces. */
  lemma {:induction false} SplitPair(x: string, y: string)
    requires '|' !in x && '|' !in y
    ensures Split(x + "|" + y, "|") == [x, y]
    decreases |x|
  {
    var s := x + "|" + y;
    if x == [] {
      assert s == "|" + y;
      assert s[..1] == "|" && s[1..] == y;
      SplitOne(y);
    } else {
      assert s[..1] == [x[0]];
      assert x[0] in x;
      assert s[1..] == x[1..] + "|" + y;
      assert forall ch :: ch in x[1..] ==> ch in x;
      SplitPair(x[1..], y);
      assert [x[0]] + x[1..] == x;
    }
  }

  predicate Bare(x: string) {
    x != "" && '|' !in x && !IsJsSpace(x[0]) && !IsJsSpace(x[|x| - 1])
  }

  /** The front-end indicator alone, with two resolved organisations: the vertex and two relations. */
  lemma BroadcastExample(cfg: Config, lookup: string -> seq<Element>, n: Record, uid: string, o1: string, o2: string)
    requires cfg.separator == "|" && Bare(cfg.apiGwIndicator)
    requires o1 != "" && o2 != ""
    ensures Emit(cfg, lookup, n, uid, [o1, o2], cfg.apiGwIndicator).calls ==
      [Call(cfg.resourcesEp, Vertex(n["tags" := StrList([ChangeEntityType, cfg.apiGwIndicator])])),
       Call(cfg.referencesEp, Relation(o1, uid, HasEdgeType)),
       Call(cfg.referencesEp, Relation(o2, uid, HasEdgeType))]
  {
    var ind := cfg.apiGwIndicator;
    SplitOne(ind);
    TrimKeeps(ind);
    assert Tokens(cfg, ind) == [ind];
    assert NonEmpty([ind]) == NonEmpty([]) + [ind];
    EmitBroadcast(cfg, lookup, n, uid, [o1, o2], ind);
    EmitVertexFirst(cfg, lookup, n, uid, [o1, o2], ind);
    var o := Emit(cfg, lookup, n, uid, [o1, o2], ind);
    assert NonEmpty([]) == [];
    assert NonEmpty(Tokens(cfg, ind)) == [ind];
    assert [ChangeEntityType] + [ind] == [ChangeEntityType, ind];
    assert o.final == n["tags" := StrList([ChangeEntityType, ind])];
    assert |o.calls| == 3;
    assert o.calls[1] == Call(cfg.referencesEp, Relation([o1, o2][0], uid, HasEdgeType));
    assert o.calls[2] == Call(cfg.referencesEp, Relation([o1, o2][1], uid, HasEdgeType));
    assert o.calls == [o.calls[0], o.calls[1], o.calls[2]];
  }

  /**
   * Services "X|Y", where X names one element of an affected organisation and
   * Y names nothing: the vertex, the element update, and its relation.
   */
  lemma TargetedExample(cfg: Config, n: Record, uid: string, x: string, y: string, o: string, e: Element)
    requires cfg.separator == "|" && Bare(x) && Bare(y) && x != y
    requires e.opco == o && o != "" && e.uniqueId != ""
    ensures var lookup := (t: string) => if t == x then [e] else [];
            var status := Attr(n["tags" := StrList([ChangeEntityType, x, y])], cfg.statusAttr);
            Emit(cfg, lookup, n, uid, [o], x + "|" + y).calls ==
              [Call(cfg.resourcesEp, Vertex(n["tags" := StrList([ChangeEntityType, x, y])])),
               Call(cfg.topoEp + "/" + e.id, ElementUpdate(e.uniqueId, status, e.entityTypes, e.matchTokens)),
               Call(cfg.referencesEp, Relation(e.uniqueId, uid, HasEdgeType))]
  {
    var lookup := (t: string) => if t == x then [e] else [];
    PairTokens(cfg, x, y);
    EmitVertexFirst(cfg, lookup, n, uid, [o], x + "|" + y);
    EmitTargeted(cfg, lookup, n, uid, [o], x + "|" + y);
    var out := Emit(cfg, lookup, n, uid, [o], x + "|" + y);
    var v := n["tags" := StrList([ChangeEntityType, x, y])];
    assert out.final == v;
    TargetedOneHit(cfg, lookup, uid, Attr(v, cfg.statusAttr), o, x, y, e);
    assert out.calls == [out.calls[0]] + out.calls[1..];
  }

  /** Two bare services give two tokens, both kept. */
  lemma PairTokens(cfg: Config, x: string, y: string)
    requires cfg.separator == "|" && Bare(x) && Bare(y)
    ensures Tokens(cfg, x + "|" + y) == [x, y]
    ensures NonEmpty([x, y]) == [x, y]
    ensures [ChangeEntityType] + [x, y] == [ChangeEntityType, x, y]
  {
    SplitPair(x, y);
    TrimKeeps(x);
    TrimKeeps(y);
    var tokens := [x, y];
    assert tokens[..1] == [x];
    assert NonEmpty(tokens) == NonEmpty([x]) + [y];
    assert NonEmpty([x]) == NonEmpty([]) + [x];
  }

  /** The targeted calls when the first service names one linked element and the second names none. */
  lemma TargetedOneHit(cfg: Config, lookup: string -> seq<Element>, uid: string, status: Option<Value>,
                       o: string, x: string, y: string, e: Element)
    requires lookup(x) == [e] && lookup(y) == [] && x != "" && y != ""
    requires e.opco == o && o != "" && e.uniqueId != ""
    ensures TargetedCalls(cfg, lookup, uid, status, [o], [x, y]) == [UpdateCall(cfg, e, status), RelationCall(cfg, e.uniqueId, uid)]
  {
    assert ElementCalls(cfg, uid, status, [o], [e]) == ElementCalls(cfg, uid, status, [o], []) +
      [UpdateCall(cfg, e, status), RelationCall(cfg, e.uniqueId, uid)];
    assert TargetedCalls(cfg, lookup, uid, status, [o], [x]) == ElementCalls(cfg, uid, status, [o], [e]);
    assert [x, y][..1] == [x];
    assert TargetedCalls(cfg, lookup, uid, status, [o], [x, y]) == TargetedCalls(cfg, lookup, uid, status, [o], [x]) + [];
  }
}
