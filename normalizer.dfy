/**
 * The change normaliser: beautifyChangeObject (separator unification and removal
 * of parenthesised revision tags in the affected-services attribute),
 * generateUID and addAiopsTopoPropperties.
 */
module Normalizer {
  import opened Wrappers
  import opened JsStrings
  import opened Values
  import opened Settings

  /** The length of a match of the regular expression `\s*\([^)]*\)` at the start of `s`, or 0. */
  function GroupLength(s: string): (n: nat)
    ensures n <= |s|
    ensures n > 0 ==> LeadingSpace(s) < n - 1 && s[LeadingSpace(s)] == '(' && s[n - 1] == ')'
    ensures n > 0 ==> ')' !in s[LeadingSpace(s) + 1..n - 1]
    ensures n == 0 && LeadingSpace(s) < |s| && s[LeadingSpace(s)] == '(' ==> ')' !in s[LeadingSpace(s) + 1..]
  {
    var w := LeadingSpace(s);
    if w < |s| && s[w] == '(' then
      var k := FirstIndex(s[w + 1..], ')');
      if w + 1 + k < |s| then w + 2 + k else 0
    else 0
  }

  /** No `(` of `r` is followed, anywhere later, by a `)`: the pattern has no match left. */
  predicate NoGroup(r: string) {
    forall i, j :: 0 <= i < j < |r| && r[i] == '(' ==> r[j] != ')'
  }

  /**
   * `s.replace(/\s*\([^)]*\)/g, '')`: matches are searched left to right, each
   * match is dropped and the search resumes after it; other characters are kept.
   */
  function StripGroups(s: string): (r: string)
    ensures forall c :: c in r ==> c in s
    ensures NoGroup(r)
    ensures '(' !in s ==> r == s
    decreases |s|
  {
    if s == [] then []
    else
      var g := GroupLength(s);
      if g > 0 then StripGroups(s[g..])
      else
        var rest := StripGroups(s[1..]);
        assert s[0] == '(' ==> ')' !in rest;
        [s[0]] + rest
  }

  /** A string the pattern does not match is left as it is. */
  lemma {:induction false} NoGroupIsFixed(s: string)
    requires NoGroup(s)
    ensures StripGroups(s) == s
    decreases |s|
  {
    if s != [] {
      assert GroupLength(s) == 0;
      assert NoGroup(s[1..]) by {
        forall i, j | 0 <= i < j < |s[1..]| && s[1..][i] == '('
          ensures s[1..][j] != ')'
        {
          assert s[i + 1] == '(';
        }
      }
      NoGroupIsFixed(s[1..]);
    }
  }

  /** Removing the groups twice removes nothing more. */
  lemma StripGroupsIdempotent(s: string)
    ensures StripGroups(StripGroups(s)) == StripGroups(s)
  {
    NoGroupIsFixed(StripGroups(s));
  }

  /**
   * The text around a match survives, in order: the characters before a
   * whitespace run that leads to a `(` are kept when none of them can start a
   * match, the match up to the first `)` is dropped, and the scan resumes
   * after it.
   */
  lemma {:induction false} StripGroupsDropsGroup(a: string, w: string, x: string, b: string)
    requires '(' !in a && (a == [] || !IsJsSpace(a[|a| - 1]))
    requires forall k :: 0 <= k < |w| ==> IsJsSpace(w[k])
    requires ')' !in x
    ensures StripGroups(a + w + "(" + x + ")" + b) == a + StripGroups(b)
    decreases |a|
  {
    var t := w + "(" + x + ")" + b;
    assert a + w + "(" + x + ")" + b == a + t;
    StripGroupsKeepsPrefix(a, t);
    GroupAtFront(w, x, b);
    StripGroupsSkip(t);
  }

  /** Text without `(` that ends in a non-space starts no match, so it is kept as it is. */
  lemma {:induction false} StripGroupsKeepsPrefix(a: string, t: string)
    requires '(' !in a && (a == [] || !IsJsSpace(a[|a| - 1]))
    ensures StripGroups(a + t) == a + StripGroups(t)
    decreases |a|
  {
    if a == [] {
      assert a + t == t;
    } else {
      var s := a + t;
      NoGroupAtFront(a, t);
      StripGroupsStep(s);
      PrefixTail(a, t);
      StripGroupsKeepsPrefix(a[1..], t);
      ConsRest(a, StripGroups(t));
    }
  }

  /** Dropping the first character keeps the conditions on the prefix. */
  lemma PrefixTail(a: string, t: string)
    requires a != [] && '(' !in a && !IsJsSpace(a[|a| - 1])
    ensures (a + t)[1..] == a[1..] + t
    ensures '(' !in a[1..] && (a[1..] == [] || !IsJsSpace(a[1..][|a[1..]| - 1]))
  {
    assert a[1..] == [] || a[1..][|a[1..]| - 1] == a[|a| - 1];
    assert forall ch :: ch in a[1..] ==> ch in a;
  }

  lemma ConsRest(a: string, x: string)
    requires a != []
    ensures [a[0]] + (a[1..] + x) == a + x
  {
    assert [a[0]] + a[1..] == a;
  }

  /** Where no match starts, the first character is kept and the scan moves on by one. */
  lemma StripGroupsStep(s: string)
    requires s != [] && GroupLength(s) == 0
    ensures StripGroups(s) == [s[0]] + StripGroups(s[1..])
  {
  }

  /** Where a match starts, it is dropped and the scan resumes after it. */
  lemma StripGroupsSkip(s: string)
    requires GroupLength(s) > 0
    ensures StripGroups(s) == StripGroups(s[GroupLength(s)..])
  {
  }

  /** A whitespace run, a `(`, text without `)` and a `)`: the match ends at that `)`. */
  lemma GroupAtFront(w: string, x: string, b: string)
    requires forall k :: 0 <= k < |w| ==> IsJsSpace(w[k])
    requires ')' !in x
    ensures var s := w + "(" + x + ")" + b;
            GroupLength(s) == |w| + |x| + 2 && s[|w| + |x| + 2..] == b
  {
    var s := w + "(" + x + ")" + b;
    var tail := "(" + x + ")" + b;
    assert s == w + tail;
    LeadingSpaceOfSpaces(w, tail);
    assert s[|w|] == tail[0] == '(';
    assert s[|w| + 1..] == tail[1..];
    OpenTail(x, b);
    FirstIndexAfter(x, ')', b);
  }

  lemma OpenTail(x: string, b: string)
    ensures ("(" + x + ")" + b)[1..] == x + [')'] + b
  {
  }

  /** A text without `(` that ends in a non-space cannot start a match. */
  lemma NoGroupAtFront(a: string, t: string)
    requires a != [] && '(' !in a && !IsJsSpace(a[|a| - 1])
    ensures GroupLength(a + t) == 0
  {
    LeadingSpaceInside(a, t);
    var n := LeadingSpace(a + t);
    assert (a + t)[n] == a[n];
  }

  /** The leading whitespace of a whitespace run followed by a non-space is that run. */
  lemma {:induction false} LeadingSpaceOfSpaces(w: string, t: string)
    requires forall k :: 0 <= k < |w| ==> IsJsSpace(w[k])
    requires t != [] && !IsJsSpace(t[0])
    ensures LeadingSpace(w + t) == |w|
    decreases |w|
  {
    if w == [] {
      assert w + t == t;
    } else {
      assert (w + t)[1..] == w[1..] + t;
      LeadingSpaceOfSpaces(w[1..], t);
    }
  }

  /** The leading whitespace of a text ending in a non-space stays inside it. */
  lemma {:induction false} LeadingSpaceInside(a: string, t: string)
    requires a != [] && !IsJsSpace(a[|a| - 1])
    ensures LeadingSpace(a + t) < |a|
    decreases |a|
  {
    if IsJsSpace(a[0]) {
      assert (a + t)[1..] == a[1..] + t;
      LeadingSpaceInside(a[1..], t);
    }
  }

  /** The separator unification done before the groups are removed: `;` and newline become `sep`, tabs go. */
  function UnifySeparators(s: string, sep: string): (r: string)
    ensures '\t' !in r
    ensures ';' !in sep ==> ';' !in r
    ensures '\n' !in sep ==> '\n' !in r
  {
    ReplaceChar(ReplaceChar(ReplaceChar(s, ';', sep), '\n', sep), '\t', "")
  }

  /** Unification works character by character, so it distributes over concatenation. */
  lemma UnifyConcat(a: string, b: string, sep: string)
    ensures UnifySeparators(a + b, sep) == UnifySeparators(a, sep) + UnifySeparators(b, sep)
  {
    ReplaceCharConcat(a, b, ';', sep);
    var a1, b1 := ReplaceChar(a, ';', sep), ReplaceChar(b, ';', sep);
    ReplaceCharConcat(a1, b1, '\n', sep);
    ReplaceCharConcat(ReplaceChar(a1, '\n', sep), ReplaceChar(b1, '\n', sep), '\t', "");
  }

  /**
   * The new affected-services text: `;` and newline become the separator, tabs
   * are deleted, then every whitespace-prefixed parenthesised group is removed.
   */
  function BeautifyServices(s: string, sep: string): (r: string)
    ensures '\t' !in r
    ensures ';' !in sep ==> ';' !in r
    ensures '\n' !in sep ==> '\n' !in r
    ensures NoGroup(r)
  {
    StripGroups(UnifySeparators(s, sep))
  }

  /**
   * The same for the whole beautification: text free of `;`, newline and tab
   * before a group survives, the group goes, and the rest is beautified.
   */
  lemma BeautifyDropsGroup(a: string, w: string, x: string, b: string, sep: string)
    requires '(' !in a && (a == [] || !IsJsSpace(a[|a| - 1]))
    requires forall k :: 0 <= k < |w| ==> IsJsSpace(w[k])
    requires ')' !in x
    requires forall ch :: ch in a + w + x ==> ch != ';' && ch != '\n' && ch != '\t'
    ensures BeautifyServices(a + w + "(" + x + ")" + b, sep) == a + BeautifyServices(b, sep)
  {
    var p := a + w + "(" + x + ")";
    assert forall ch :: ch in p ==> ch in a + w + x || ch == '(' || ch == ')';
    assert UnifySeparators(p, sep) == p;
    UnifyConcat(p, b, sep);
    StripGroupsDropsGroup(a, w, x, UnifySeparators(b, sep));
  }

  /** The record after beautifyChangeObject, or the TypeError an array value raises. */
  function Beautified(cfg: Config, r: Record): (res: Result<Record>)
    ensures res.Failure? <==> cfg.servicesAttr in r && r[cfg.servicesAttr].StrList?
    ensures res.Success? ==> res.value.Keys == r.Keys
    ensures res.Success? ==> forall k :: k in r && k != cfg.servicesAttr ==> res.value[k] == r[k]
    ensures res.Success? && !Truthy(Attr(r, cfg.servicesAttr)) ==> res.value == r
    ensures Truthy(Attr(r, cfg.servicesAttr)) && res.Success? ==>
      res.value[cfg.servicesAttr] == Str(BeautifyServices(r[cfg.servicesAttr].s, cfg.separator))
  {
    match Attr(r, cfg.servicesAttr)
    case Some(StrList(_)) => Failure("replace is not a function of an array")
    case Some(Str(s)) =>
      if s == "" then Success(r)
      else Success(r[cfg.servicesAttr := Str(BeautifyServices(s, cfg.separator))])
    case _ => Success(r)
  }

  /** beautifyChangeObject: rewrites the affected-services attribute in place. */
  method BeautifyChangeObject(cfg: Config, change: ChangeRecord) returns (threw: bool)
    modifies change
    ensures threw == Beautified(cfg, old(change.attrs)).Failure?
    ensures change.attrs == if threw then old(change.attrs) else Beautified(cfg, old(change.attrs)).value
  {
    var val := Attr(change.attrs, cfg.servicesAttr);
    if Truthy(val) {
      if !val.value.Str? {
        return true;
      }
      change.attrs := change.attrs[cfg.servicesAttr := Str(BeautifyServices(val.value.s, cfg.separator))];
    }
    return false;
  }

  /** A JavaScript time value: milliseconds since the epoch, or an invalid date (NaN). */
  datatype Epoch = Millis(ms: int) | InvalidDate

  /**
   * `${Math.floor(t / 1000)}`. For a positive divisor Dafny's `/` rounds towards
   * negative infinity, as Math.floor does.
   */
  function EpochText(e: Epoch): (r: string)
    ensures '_' !in r && '|' !in r
  {
    match e
    case Millis(ms) => IntToDecimal(ms / 1000)
    case InvalidDate => "NaN"
  }

  /** The stamp of a valid time value reads back as its whole seconds. */
  lemma EpochSeconds(ms: int)
    ensures ParseInt(EpochText(Millis(ms))) == Some(ms / 1000)
  {
    var seconds := ms / 1000;
    assert EpochText(Millis(ms)) == IntToDecimal(seconds);
    IntDecimalRoundTrip(seconds);
  }

  /** The parsed implementation start when that attribute is truthy, else the clock. */
  function StartEpoch(cfg: Config, parseDate: Value -> Epoch, r: Record, nowMs: int): (e: Epoch)
    ensures Truthy(Attr(r, cfg.startAttr)) ==> e == parseDate(r[cfg.startAttr])
    ensures !Truthy(Attr(r, cfg.startAttr)) ==> e == Millis(nowMs)
  {
    if Truthy(Attr(r, cfg.startAttr)) then parseDate(r[cfg.startAttr]) else Millis(nowMs)
  }

  /** A truthy start time decides the stamp on its own; otherwise only the clock does. */
  lemma StartEpochSources(cfg: Config, p1: Value -> Epoch, p2: Value -> Epoch, r: Record, n1: int, n2: int)
    ensures Truthy(Attr(r, cfg.startAttr)) ==> StartEpoch(cfg, p1, r, n1) == StartEpoch(cfg, p1, r, n2)
    ensures !Truthy(Attr(r, cfg.startAttr)) ==> StartEpoch(cfg, p1, r, n1) == StartEpoch(cfg, p2, r, n1)
  {
  }

  /** The affected-services text generateUID sees: empty when the attribute is falsy. */
  function ServicesText(v: Option<Value>): string {
    match v
    case Some(Str(s)) => s
    case _ => ""
  }

  /** generateUID. */
  function GenerateUid(epoch: Epoch, services: string): (uid: string)
    ensures StartsWith(uid, "CHG_")
    ensures '|' !in uid
  {
    "CHG_" + EpochText(epoch) + (if services != "" then "_" + ReplaceChar(services, '|', "_") else "")
  }

  /** The two parts of a change id: the second stamp and, after the first `_`, the services. */
  datatype UidParts = UidParts(stamp: string, suffix: Option<string>)

  function ParseUid(uid: string): Option<UidParts> {
    if !StartsWith(uid, "CHG_") then None
    else
      var rest := uid[4..];
      var i := FirstIndex(rest, '_');
      if i == |rest| then Some(UidParts(rest, None))
      else Some(UidParts(rest[..i], Some(rest[i + 1..])))
  }

  /**
   * A change id splits back into its stamp and its services part; the services
   * part is present exactly when the services text is non-empty.
   */
  lemma UidRoundTrip(epoch: Epoch, services: string)
    ensures ParseUid(GenerateUid(epoch, services)) ==
      Some(UidParts(EpochText(epoch), if services == "" then None else Some(ReplaceChar(services, '|', "_"))))
  {
    var stamp := EpochText(epoch);
    if services == "" {
      assert GenerateUid(epoch, services) == "CHG_" + stamp;
      ParseBareStamp(stamp);
    } else {
      var tail := ReplaceChar(services, '|', "_");
      assert GenerateUid(epoch, services) == "CHG_" + stamp + "_" + tail;
      ParseStampAndSuffix(stamp, tail);
    }
  }

  lemma ParseBareStamp(stamp: string)
    requires '_' !in stamp
    ensures ParseUid("CHG_" + stamp) == Some(UidParts(stamp, None))
  {
    var uid := "CHG_" + stamp;
    assert StartsWith(uid, "CHG_") && uid[4..] == stamp;
    assert FirstIndex(stamp, '_') == |stamp|;
  }

  lemma ParseStampAndSuffix(stamp: string, tail: string)
    requires '_' !in stamp
    ensures ParseUid("CHG_" + stamp + "_" + tail) == Some(UidParts(stamp, Some(tail)))
  {
    var uid := "CHG_" + stamp + "_" + tail;
    var rest := stamp + ['_'] + tail;
    assert StartsWith(uid, "CHG_") && uid[4..] == rest;
    FirstIndexAfter(stamp, '_', tail);
    assert rest[..|stamp|] == stamp;
    assert rest[|stamp| + 1..] == tail;
  }

  /** The record after addAiopsTopoPropperties set the id, the entity types and the match tokens. */
  function WithTopoProperties(r: Record, uid: string): (r': Record)
    ensures r'.Keys == r.Keys + {"uniqueId", "entityTypes", "matchTokens"}
    ensures r'["uniqueId"] == Str(uid)
    ensures r'["entityTypes"] == StrList([ChangeEntityType])
    ensures r'["matchTokens"] == StrList([uid])
    ensures forall k :: k in r && k != "uniqueId" && k != "entityTypes" && k != "matchTokens" ==> r'[k] == r[k]
  {
    r["uniqueId" := Str(uid)]["entityTypes" := StrList([ChangeEntityType])]["matchTokens" := StrList([uid])]
  }

  /** addAiopsTopoPropperties; returns the id it assigned (`change.uniqueId`). */
  method AddAiopsTopoPropperties(cfg: Config, parseDate: Value -> Epoch, nowMs: int, change: ChangeRecord)
    returns (uid: string)
    modifies change
    ensures uid == GenerateUid(StartEpoch(cfg, parseDate, old(change.attrs), nowMs),
                               ServicesText(Attr(old(change.attrs), cfg.servicesAttr)))
    ensures change.attrs == WithTopoProperties(old(change.attrs), uid)
  {
    uid := GenerateUid(StartEpoch(cfg, parseDate, change.attrs, nowMs), ServicesText(Attr(change.attrs, cfg.servicesAttr)));
    change.attrs := change.attrs["uniqueId" := Str(uid)];
    change.attrs := change.attrs["entityTypes" := StrList([ChangeEntityType])];
    change.attrs := change.attrs["matchTokens" := StrList([uid])];
  }
}
