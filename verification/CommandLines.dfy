/**
 What command lines mean, told of their characters: for every form of an option what the caller is told, which elements
 it spans, and which elements are others. Together the forms cover every element of every list.
 */
module CommandLines {
  import opened Wrappers
  import opened Options
  import opened Getopt

  // ---------- which long option is meant ----------

  /**
   The option that a text means: the first of exactly that name; or else the first of those that the text abbreviates,
   if they agree in argument, flag and value.
   */
  ghost predicate Means(opts: seq<LongOption>, key: string, i: nat) {
    && i < |opts|
    && if opts[i].name == key then forall j :: 0 <= j < i ==> opts[j].name != key
       else
         && (forall j :: 0 <= j < |opts| ==> opts[j].name != key)
         && key <= opts[i].name && (forall j :: 0 <= j < i ==> !(key <= opts[j].name))
         && forall j :: 0 <= j < |opts| && key <= opts[j].name ==>
              opts[j].hasArg == opts[i].hasArg && opts[j].flag == opts[i].flag && opts[j].val == opts[i].val
  }

  /** No option begins with the text. */
  ghost predicate MeansNothing(opts: seq<LongOption>, key: string) {
    forall j :: 0 <= j < |opts| ==> !(key <= opts[j].name)
  }

  /** No option has that name, and two that differ begin with it. */
  ghost predicate MeansTooMuch(opts: seq<LongOption>, key: string) {
    && (forall j :: 0 <= j < |opts| ==> opts[j].name != key)
    && exists i, j :: 0 <= i < j < |opts| && key <= opts[i].name && key <= opts[j].name
         && (opts[j].hasArg != opts[i].hasArg || opts[j].flag != opts[i].flag || opts[j].val != opts[i].val)
  }

  lemma MatchIs(opts: seq<LongOption>, key: string)
    ensures forall i: nat :: Means(opts, key, i) <==> MatchOf(opts, key) == Found(i)
    ensures MeansNothing(opts, key) <==> MatchOf(opts, key) == NotFound
    ensures MeansTooMuch(opts, key) <==> MatchOf(opts, key) == Ambiguous
  {
    var exact, first := ExactIndex(opts, key), AbbreviatedIndex(opts, key);
    assert exact < |opts| ==> key <= opts[exact].name;
    if exact == |opts| && first < |opts| {
      AmbiguousIff(opts, key, first);
    }
  }

  lemma AmbiguousIff(opts: seq<LongOption>, key: string, first: nat)
    requires first < |opts| && first == AbbreviatedIndex(opts, key)
    ensures Differs(opts, key, first) <==>
      exists i, j :: 0 <= i < j < |opts| && key <= opts[i].name && key <= opts[j].name
         && (opts[j].hasArg != opts[i].hasArg || opts[j].flag != opts[i].flag || opts[j].val != opts[i].val)
  {
    if Differs(opts, key, first) {
      var j :| 0 <= j < |opts| && Abbreviates(key, opts[j].name) && !Alike(opts[first], opts[j]);
      assert first < j;
    } else {
      forall j | 0 <= j < |opts| && key <= opts[j].name
        ensures Alike(opts[first], opts[j])
      {
        assert Abbreviates(key, opts[j].name);
      }
    }
  }

  // ---------- what elements read as ----------

  /**
   Whatever stands behind them, the elements of the span are options and their arguments, the caller is told these
   things of them, and the rest reads as it does by itself.
   */
  ghost predicate Reads(t: Table, span: seq<string>, told: seq<Outcome>, rest: seq<string>) {
    && Outcomes(t, span + rest) == told + Outcomes(t, rest)
    && Divide(t, span + rest) == Parts(span + Divide(t, rest).options, Divide(t, rest).others)
  }

  lemma OneElement(t: Table, x: string, told: seq<Outcome>, rest: seq<string>)
    requires !NonOption(x) && x != "--"
    requires TakesNext(t, x) ==> rest == []
    requires ElementOutcomes(t, [x] + rest) == told
    ensures Reads(t, [x], told, rest)
  {
    var all := [x] + rest;
    assert all[1..] == rest && all[..1] == [x];
  }

  lemma TwoElements(t: Table, x: string, v: string, told: seq<Outcome>, rest: seq<string>)
    requires !NonOption(x) && x != "--" && TakesNext(t, x)
    requires ElementOutcomes(t, [x, v] + rest) == told
    ensures Reads(t, [x, v], told, rest)
  {
    var all := [x, v] + rest;
    assert all[2..] == rest && all[..2] == [x, v];
  }

  /** An element that does not begin with a dash, or is a dash, is an other, and nothing is told of it. */
  lemma OtherIsPassed(t: Table, x: string, rest: seq<string>)
    requires x == "" || x[0] != '-' || x == "-"
    ensures Outcomes(t, [x] + rest) == Outcomes(t, rest)
    ensures Divide(t, [x] + rest) == Parts(Divide(t, rest).options, [x] + Divide(t, rest).others)
  {
    var all := [x] + rest;
    assert all[1..] == rest && all[..1] == [x];
  }

  /** Two dashes end the options, and are not an other themselves. */
  lemma TwoDashesEnd(t: Table, rest: seq<string>)
    ensures Outcomes(t, ["--"] + rest) == []
    ensures Divide(t, ["--"] + rest) == Parts(["--"], rest)
  {
    var all := ["--"] + rest;
    assert all[1..] == rest && all[..1] == ["--"];
  }

  // ---------- long options ----------

  /** The caller is told of the `i`-th long option and its argument: by its value, or through its flag. */
  ghost predicate TellsLong(o: Outcome, opts: seq<LongOption>, i: nat, optarg: Option<string>) {
    && i < |opts| && o.longind == Some(i) && o.optarg == optarg && o.optopt == None
    && (opts[i].flag == 0 ==> o.code == opts[i].val && o.flagged == None)
    && (opts[i].flag != 0 ==> o.code == 0 && o.flagged == Some((opts[i].flag, opts[i].val)))
  }

  /** The caller is told of a failure, and of which option. */
  ghost predicate TellsFailure(o: Outcome, code: char, optopt: int) {
    && o.code == code as int && o.optopt == Some(optopt)
    && o.optarg == None && o.longind == None && o.flagged == None
  }

  /** The code for an argument that is missing: an option string that begins with a colon asks for a colon. */
  ghost predicate AsksForColon(optstring: string) {
    optstring != "" && optstring[0] == ':'
  }

  lemma WithEquals(key: string, v: string)
    requires '=' !in key
    ensures IndexOf(key + "=" + v, '=') == |key| && KeyOf(key + "=" + v) == key && (key + "=" + v)[|key| + 1..] == v
  {
    var s := key + "=" + v;
    assert s[|key|] == '=' && forall j :: 0 <= j < |key| ==> s[j] == key[j];
    assert s[..|key|] == key;
  }

  lemma WithoutEquals(key: string)
    requires '=' !in key
    ensures KeyOf(key) == key
  {
    assert IndexOf(key, '=') == |key|;
  }

  lemma LongElement(t: Table, text: string, rest: seq<string>)
    requires t.longopts.Some? && text != ""
    ensures !NonOption("--" + text) && "--" + text != "--" && IsLong(t, "--" + text)
    ensures ("--" + text)[2..] == text
  {
    assert |"--" + text| > 2;
  }

  /** `--key=value`, of an option that may have an argument. */
  lemma LongWithValue(t: Table, opts: seq<LongOption>, key: string, v: string, i: nat, rest: seq<string>)
    returns (o: Outcome)
    requires t.longopts == Some(opts) && '=' !in key && Means(opts, key, i) && opts[i].hasArg != NoArgument
    ensures TellsLong(o, opts, i, Some(v)) && Reads(t, ["--" + key + "=" + v], [o], rest)
  {
    var text := key + "=" + v;
    assert "--" + key + "=" + v == "--" + text;
    LongElement(t, text, rest);
    WithEquals(key, v);
    MatchIs(opts, key);
    o := LongOutcome(t.optstring, opts, text, NextOf(["--" + text] + rest));
    OneElement(t, "--" + text, [o], rest);
  }

  /** `--key value`, of an option that must have an argument: it is the next element, whatever that looks like. */
  lemma LongWithNext(t: Table, opts: seq<LongOption>, key: string, v: string, i: nat, rest: seq<string>)
    returns (o: Outcome)
    requires t.longopts == Some(opts) && '=' !in key && key != "" && Means(opts, key, i)
    requires opts[i].hasArg == RequiredArgument
    ensures TellsLong(o, opts, i, Some(v)) && Reads(t, ["--" + key, v], [o], rest)
  {
    LongElement(t, key, rest);
    WithoutEquals(key);
    MatchIs(opts, key);
    o := LongOutcome(t.optstring, opts, key, NextOf(["--" + key, v] + rest));
    TwoElements(t, "--" + key, v, [o], rest);
  }

  /** `--key`, of an option that need not have an argument: the next element is not taken for it. */
  lemma LongAlone(t: Table, opts: seq<LongOption>, key: string, i: nat, rest: seq<string>)
    returns (o: Outcome)
    requires t.longopts == Some(opts) && '=' !in key && key != "" && Means(opts, key, i)
    requires opts[i].hasArg != RequiredArgument
    ensures TellsLong(o, opts, i, None) && Reads(t, ["--" + key], [o], rest)
  {
    LongElement(t, key, rest);
    WithoutEquals(key);
    MatchIs(opts, key);
    o := LongOutcome(t.optstring, opts, key, NextOf(["--" + key] + rest));
    OneElement(t, "--" + key, [o], rest);
  }

  /** `--key` at the end, of an option that must have an argument. */
  lemma LongLacksValue(t: Table, opts: seq<LongOption>, key: string, i: nat)
    returns (o: Outcome)
    requires t.longopts == Some(opts) && '=' !in key && key != "" && Means(opts, key, i)
    requires opts[i].hasArg == RequiredArgument
    ensures TellsFailure(o, if AsksForColon(t.optstring) then ':' else '?', opts[i].val)
    ensures Reads(t, ["--" + key], [o], [])
  {
    LongElement(t, key, []);
    WithoutEquals(key);
    MatchIs(opts, key);
    o := LongOutcome(t.optstring, opts, key, NextOf(["--" + key] + []));
    OneElement(t, "--" + key, [o], []);
  }

  /** `--key=value`, of an option that must not have an argument. */
  lemma LongRefusesValue(t: Table, opts: seq<LongOption>, key: string, v: string, i: nat, rest: seq<string>)
    returns (o: Outcome)
    requires t.longopts == Some(opts) && '=' !in key && Means(opts, key, i) && opts[i].hasArg == NoArgument
    ensures TellsFailure(o, '?', opts[i].val) && Reads(t, ["--" + key + "=" + v], [o], rest)
  {
    var text := key + "=" + v;
    assert "--" + key + "=" + v == "--" + text;
    LongElement(t, text, rest);
    WithEquals(key, v);
    MatchIs(opts, key);
    o := LongOutcome(t.optstring, opts, text, NextOf(["--" + text] + rest));
    OneElement(t, "--" + text, [o], rest);
  }

  /** A text that means no option or too many, with a value or without: one failure, and no element is taken with it. */
  lemma LongIsNone(t: Table, opts: seq<LongOption>, key: string, v: string, rest: seq<string>)
    returns (o: Outcome)
    requires t.longopts == Some(opts) && '=' !in key && (MeansNothing(opts, key) || MeansTooMuch(opts, key))
    ensures TellsFailure(o, '?', 0) && Reads(t, ["--" + key + "=" + v], [o], rest)
    ensures key != "" ==> Reads(t, ["--" + key], [o], rest)
  {
    var text := key + "=" + v;
    WithEquals(key, v);
    o := NoneFound(t, opts, text, rest);
    assert "--" + key + "=" + v == "--" + text;
    if key != "" {
      WithoutEquals(key);
      var p := NoneFound(t, opts, key, rest);
    }
  }

  lemma NoneFound(t: Table, opts: seq<LongOption>, text: string, rest: seq<string>) returns (o: Outcome)
    requires t.longopts == Some(opts) && text != ""
    requires MeansNothing(opts, KeyOf(text)) || MeansTooMuch(opts, KeyOf(text))
    ensures TellsFailure(o, '?', 0) && Reads(t, ["--" + text], [o], rest)
  {
    LongElement(t, text, rest);
    MatchIs(opts, KeyOf(text));
    o := LongOutcome(t.optstring, opts, text, NextOf(["--" + text] + rest));
    OneElement(t, "--" + text, [o], rest);
  }

  /** Every text means one option, or none, or too many. */
  lemma EveryKeyMeans(opts: seq<LongOption>, key: string)
    ensures (exists i: nat :: Means(opts, key, i)) || MeansNothing(opts, key) || MeansTooMuch(opts, key)
    ensures forall i: nat, j: nat :: Means(opts, key, i) && Means(opts, key, j) ==> i == j
    ensures forall i: nat :: Means(opts, key, i) ==> !MeansNothing(opts, key) && !MeansTooMuch(opts, key)
    ensures !(MeansNothing(opts, key) && MeansTooMuch(opts, key))
  {
    MatchIs(opts, key);
    if MatchOf(opts, key).Found? {
      assert Means(opts, key, MatchOf(opts, key).index);
    }
  }

  lemma NameMeans(opts: seq<LongOption>, key: string, i: nat)
    requires Means(opts, key, i)
    ensures Means(opts, opts[i].name, i)
    ensures '=' !in opts[i].name ==> '=' !in key
  {
    var name := opts[i].name;
    assert name[..|key|] == key;
    assert forall j :: 0 <= j < |key| ==> key[j] == name[j];
  }

  lemma SameTold(o: Outcome, p: Outcome, opts: seq<LongOption>, i: nat, optarg: Option<string>)
    requires TellsLong(o, opts, i, optarg) && TellsLong(p, opts, i, optarg)
    ensures o == p
  {
  }

  /** An abbreviation says what the full name says: with a value in its element, */
  lemma AbbreviationWithValue(t: Table, opts: seq<LongOption>, key: string, v: string, i: nat, rest: seq<string>)
    requires t.longopts == Some(opts) && Means(opts, key, i) && '=' !in opts[i].name
    ensures Outcomes(t, ["--" + key + "=" + v] + rest) == Outcomes(t, ["--" + opts[i].name + "=" + v] + rest)
  {
    var name := opts[i].name;
    NameMeans(opts, key, i);
    if opts[i].hasArg == NoArgument {
      var o := LongRefusesValue(t, opts, key, v, i, rest);
      var p := LongRefusesValue(t, opts, name, v, i, rest);
    } else {
      var o := LongWithValue(t, opts, key, v, i, rest);
      var p := LongWithValue(t, opts, name, v, i, rest);
      SameTold(o, p, opts, i, Some(v));
    }
  }

  lemma AbbreviationWithNext(t: Table, opts: seq<LongOption>, key: string, v: string, i: nat, rest: seq<string>)
    requires t.longopts == Some(opts) && key != "" && Means(opts, key, i) && '=' !in opts[i].name
    requires opts[i].hasArg == RequiredArgument
    ensures Outcomes(t, ["--" + key, v] + rest) == Outcomes(t, ["--" + opts[i].name, v] + rest)
  {
    NameMeans(opts, key, i);
    var o := LongWithNext(t, opts, key, v, i, rest);
    var p := LongWithNext(t, opts, opts[i].name, v, i, rest);
    SameTold(o, p, opts, i, Some(v));
  }

  /** and without one, whatever follows. */
  lemma AbbreviationIsName(t: Table, opts: seq<LongOption>, key: string, i: nat, rest: seq<string>)
    requires t.longopts == Some(opts) && key != "" && Means(opts, key, i) && '=' !in opts[i].name
    ensures Outcomes(t, ["--" + key] + rest) == Outcomes(t, ["--" + opts[i].name] + rest)
  {
    if opts[i].hasArg == RequiredArgument && rest != [] {
      AbbreviationWithNext(t, opts, key, rest[0], i, rest[1..]);
      FirstOfRest("--" + key, rest);
      FirstOfRest("--" + opts[i].name, rest);
    } else {
      AbbreviationAlone(t, opts, key, i, rest);
    }
  }

  lemma FirstOfRest(x: string, rest: seq<string>)
    requires rest != []
    ensures [x] + rest == [x, rest[0]] + rest[1..]
  {
  }

  lemma AbbreviationAlone(t: Table, opts: seq<LongOption>, key: string, i: nat, rest: seq<string>)
    requires t.longopts == Some(opts) && key != "" && Means(opts, key, i) && '=' !in opts[i].name
    requires opts[i].hasArg == RequiredArgument ==> rest == []
    ensures Outcomes(t, ["--" + key] + rest) == Outcomes(t, ["--" + opts[i].name] + rest)
  {
    NameMeans(opts, key, i);
    if opts[i].hasArg == RequiredArgument {
      var o := LongLacksValue(t, opts, key, i);
      var p := LongLacksValue(t, opts, opts[i].name, i);
    } else {
      var o := LongAlone(t, opts, key, i, rest);
      var p := LongAlone(t, opts, opts[i].name, i, rest);
      SameTold(o, p, opts, i, None);
    }
  }

  // ---------- short options ----------

  /** The character is not a colon, and stands in the option string with this many colons behind it, up to two. */
  ghost predicate Declared(optstring: string, c: char, before: string, colons: nat, after: string) {
    && c != ':' && c !in before && colons <= 2
    && optstring == before + [c] + "::"[..colons] + after
    && (colons < 2 ==> after == "" || after[0] != ':')
  }

  /** Without a colon behind it an option has no argument, with one it must have one, with two it may. */
  ghost predicate Colons(optstring: string, c: char, n: nat) {
    exists before, after :: Declared(optstring, c, before, n, after)
  }

  ghost predicate NotDeclared(optstring: string, c: char) {
    c == ':' || c !in optstring
  }

  lemma DeclaredKind(optstring: string, c: char, before: string, n: nat, after: string)
    requires Declared(optstring, c, before, n, after)
    ensures c in optstring
    ensures ShortKindOf(optstring, c) == if n == 0 then Plain else if n == 1 then Requires else Allows
  {
    var i := |before|;
    assert optstring[i] == c;
    assert forall k :: 0 <= k < i ==> optstring[k] == before[k];
    assert IndexOf(optstring, c) == i;
    assert n > 0 ==> optstring[i + 1] == ':';
    assert n > 1 ==> optstring[i + 2] == ':';
    assert optstring[i + 1 + n..] == after;
    assert after != "" ==> optstring[i + 1 + n] == after[0];
  }

  lemma DeclaredSomehow(optstring: string, c: char)
    requires !NotDeclared(optstring, c)
    ensures Colons(optstring, c, 0) || Colons(optstring, c, 1) || Colons(optstring, c, 2)
  {
    var i := IndexOf(optstring, c);
    var n := if i + 1 == |optstring| || optstring[i + 1] != ':' then 0
             else if i + 2 == |optstring| || optstring[i + 2] != ':' then 1 else 2;
    var before, after := optstring[..i], optstring[i + 1 + n..];
    assert optstring == before + [c] + "::"[..n] + after;
    assert Declared(optstring, c, before, n, after);
  }

  lemma KindIs(optstring: string, c: char)
    ensures Colons(optstring, c, 0) <==> ShortKindOf(optstring, c) == Plain
    ensures Colons(optstring, c, 1) <==> ShortKindOf(optstring, c) == Requires
    ensures Colons(optstring, c, 2) <==> ShortKindOf(optstring, c) == Allows
    ensures NotDeclared(optstring, c) <==> ShortKindOf(optstring, c) == Unknown
  {
    forall before, n: nat, after | Declared(optstring, c, before, n, after)
      ensures ShortKindOf(optstring, c) == if n == 0 then Plain else if n == 1 then Requires else Allows
      ensures c in optstring
    {
      DeclaredKind(optstring, c, before, n, after);
    }
    if !NotDeclared(optstring, c) {
      DeclaredSomehow(optstring, c);
    }
  }

  /** Characters that have no argument: options without a colon, and characters that are no options. */
  ghost predicate Bare(optstring: string, cs: string) {
    forall k :: 0 <= k < |cs| ==> NotDeclared(optstring, cs[k]) || Colons(optstring, cs[k], 0)
  }

  /** The caller is told of a short option and its argument. */
  ghost predicate TellsShort(o: Outcome, c: char, optarg: Option<string>) {
    o.code == c as int && o.optarg == optarg && o.optopt == None && o.longind == None && o.flagged == None
  }

  /** The character, or a failure that names it. */
  ghost predicate TellsOne(o: Outcome, optstring: string, c: char) {
    if NotDeclared(optstring, c) then TellsFailure(o, '?', c as int) else TellsShort(o, c, None)
  }

  ghost predicate TellsBare(told: seq<Outcome>, optstring: string, cs: string) {
    |told| == |cs| && forall k :: 0 <= k < |cs| ==> TellsOne(told[k], optstring, cs[k])
  }

  /** One dash and something behind it; a second dash makes it a long option, if there are any, or the terminator. */
  ghost predicate IsCluster(t: Table, text: string) {
    text != "" && text != "-" && (text[0] == '-' ==> t.longopts == None)
  }

  lemma OneBare(optstring: string, c: char, tail: string, next: Option<string>) returns (o: Outcome)
    requires NotDeclared(optstring, c) || Colons(optstring, c, 0)
    ensures TellsOne(o, optstring, c)
    ensures ClusterOutcomes(optstring, [c] + tail, next) == [o] + ClusterOutcomes(optstring, tail, next)
    ensures ClusterTakesNext(optstring, [c] + tail) == ClusterTakesNext(optstring, tail)
  {
    KindIs(optstring, c);
    o := ShortOutcome(optstring, c, tail, next);
    assert ([c] + tail)[1..] == tail;
  }

  lemma MoreBare(optstring: string, c: char, o: Outcome, cs: string, told: seq<Outcome>)
    requires TellsOne(o, optstring, c) && TellsBare(told, optstring, cs)
    ensures TellsBare([o] + told, optstring, [c] + cs)
  {
  }

  lemma CutFirst(cs: string, tail: string)
    requires cs != ""
    ensures cs == [cs[0]] + cs[1..] && cs + tail == [cs[0]] + (cs[1..] + tail)
  {
  }

  lemma {:induction false} BareFirst(optstring: string, cs: string, tail: string, next: Option<string>)
    returns (told: seq<Outcome>)
    requires Bare(optstring, cs)
    ensures TellsBare(told, optstring, cs)
    ensures ClusterOutcomes(optstring, cs + tail, next) == told + ClusterOutcomes(optstring, tail, next)
    ensures ClusterTakesNext(optstring, cs + tail) == ClusterTakesNext(optstring, tail)
  {
    if cs == "" {
      assert cs + tail == tail;
      told := [];
    } else {
      var more := BareFirst(optstring, cs[1..], tail, next);
      var o := OneBare(optstring, cs[0], cs[1..] + tail, next);
      MoreBare(optstring, cs[0], o, cs[1..], more);
      CutFirst(cs, tail);
      told := [o] + more;
      HeadFirst(o, more, ClusterOutcomes(optstring, tail, next));
    }
  }

  lemma ClusterElement(t: Table, text: string, rest: seq<string>)
    requires IsCluster(t, text)
    ensures !NonOption("-" + text) && "-" + text != "--" && !IsLong(t, "-" + text) && ("-" + text)[1..] == text
    ensures TakesNext(t, "-" + text) == ClusterTakesNext(t.optstring, text)
    ensures ElementOutcomes(t, ["-" + text] + rest) == ClusterOutcomes(t.optstring, text, NextOf(["-" + text] + rest))
  {
    assert |text| == 1 ==> text == [text[0]] && text[0] != '-';
  }

  /** `-abc`, where none has an argument. */
  lemma ClusterOfBare(t: Table, cs: string, rest: seq<string>) returns (told: seq<Outcome>)
    requires IsCluster(t, cs) && Bare(t.optstring, cs)
    ensures TellsBare(told, t.optstring, cs) && Reads(t, ["-" + cs], told, rest)
  {
    told := BareFirst(t.optstring, cs, "", NextOf(["-" + cs] + rest));
    assert cs + "" == cs;
    ClusterElement(t, cs, rest);
    OneElement(t, "-" + cs, told, rest);
  }

  /** `-abcvalue`, where the last option may or must have an argument: it is all that is left of the element. */
  lemma ClusterWithValue(t: Table, cs: string, c: char, n: nat, v: string, rest: seq<string>)
    returns (told: seq<Outcome>, o: Outcome)
    requires IsCluster(t, cs + [c] + v) && Bare(t.optstring, cs) && Colons(t.optstring, c, n) && 1 <= n <= 2 && v != ""
    ensures TellsBare(told, t.optstring, cs) && TellsShort(o, c, Some(v))
    ensures Reads(t, ["-" + cs + [c] + v], told + [o], rest)
  {
    var text, next := cs + [c] + v, NextOf(["-" + (cs + [c] + v)] + rest);
    told, o := LastWithValue(t.optstring, cs, c, n, v, next);
    ClusterElement(t, text, rest);
    OneElement(t, "-" + text, told + [o], rest);
    assert "-" + cs + [c] + v == "-" + text;
  }

  lemma LastWithValue(optstring: string, cs: string, c: char, n: nat, v: string, next: Option<string>)
    returns (told: seq<Outcome>, o: Outcome)
    requires Bare(optstring, cs) && Colons(optstring, c, n) && 1 <= n <= 2 && v != ""
    ensures TellsBare(told, optstring, cs) && TellsShort(o, c, Some(v))
    ensures ClusterOutcomes(optstring, cs + [c] + v, next) == told + [o]
    ensures !ClusterTakesNext(optstring, cs + [c] + v)
  {
    told := BareFirst(optstring, cs, [c] + v, next);
    o := ValueOfLast(optstring, c, n, v, next);
    assert cs + ([c] + v) == cs + [c] + v;
  }

  lemma ValueOfLast(optstring: string, c: char, n: nat, v: string, next: Option<string>) returns (o: Outcome)
    requires Colons(optstring, c, n) && 1 <= n <= 2 && v != ""
    ensures TellsShort(o, c, Some(v)) && ClusterOutcomes(optstring, [c] + v, next) == [o]
    ensures !ClusterTakesNext(optstring, [c] + v)
  {
    KindIs(optstring, c);
    assert ([c] + v)[1..] == v;
    o := ShortOutcome(optstring, c, v, next);
  }

  lemma LastWithNext(optstring: string, cs: string, c: char, n: nat, next: Option<string>)
    returns (told: seq<Outcome>, o: Outcome)
    requires Bare(optstring, cs) && Colons(optstring, c, n) && 1 <= n <= 2
    ensures TellsBare(told, optstring, cs)
    ensures n == 1 && next.Some? ==> TellsShort(o, c, next)
    ensures n == 1 && next.None? ==> TellsFailure(o, if AsksForColon(optstring) then ':' else '?', c as int)
    ensures n == 2 ==> TellsShort(o, c, None)
    ensures ClusterOutcomes(optstring, cs + [c], next) == told + [o]
    ensures ClusterTakesNext(optstring, cs + [c]) <==> n == 1
  {
    told := BareFirst(optstring, cs, [c], next);
    KindIs(optstring, c);
    o := ShortOutcome(optstring, c, "", next);
  }

  /** `-abc value`, where the last option must have an argument: it is the next element, whatever that looks like. */
  lemma ClusterWithNext(t: Table, cs: string, c: char, v: string, rest: seq<string>)
    returns (told: seq<Outcome>, o: Outcome)
    requires IsCluster(t, cs + [c]) && Bare(t.optstring, cs) && Colons(t.optstring, c, 1)
    ensures TellsBare(told, t.optstring, cs) && TellsShort(o, c, Some(v))
    ensures Reads(t, ["-" + cs + [c], v], told + [o], rest)
  {
    var text := cs + [c];
    assert ["-" + text] + ([v] + rest) == ["-" + text, v] + rest;
    told, o := LastWithNext(t.optstring, cs, c, 1, Some(v));
    ClusterElement(t, text, [v] + rest);
    TwoElements(t, "-" + text, v, told + [o], rest);
    assert "-" + cs + [c] == "-" + text;
  }

  /** `-abc` at the end, where the last option must have an argument. */
  lemma ClusterLacksValue(t: Table, cs: string, c: char) returns (told: seq<Outcome>, o: Outcome)
    requires IsCluster(t, cs + [c]) && Bare(t.optstring, cs) && Colons(t.optstring, c, 1)
    ensures TellsBare(told, t.optstring, cs)
    ensures TellsFailure(o, if AsksForColon(t.optstring) then ':' else '?', c as int)
    ensures Reads(t, ["-" + cs + [c]], told + [o], [])
  {
    var text := cs + [c];
    told, o := LastWithNext(t.optstring, cs, c, 1, None);
    ClusterElement(t, text, []);
    OneElement(t, "-" + text, told + [o], []);
    assert "-" + cs + [c] == "-" + text;
  }

  /** `-abc`, where the last option may have an argument: the next element is not taken for it. */
  lemma ClusterWithoutValue(t: Table, cs: string, c: char, rest: seq<string>)
    returns (told: seq<Outcome>, o: Outcome)
    requires IsCluster(t, cs + [c]) && Bare(t.optstring, cs) && Colons(t.optstring, c, 2)
    ensures TellsBare(told, t.optstring, cs) && TellsShort(o, c, None)
    ensures Reads(t, ["-" + cs + [c]], told + [o], rest)
  {
    var text := cs + [c];
    told, o := LastWithNext(t.optstring, cs, c, 2, NextOf(["-" + text] + rest));
    ClusterElement(t, text, rest);
    OneElement(t, "-" + text, told + [o], rest);
    assert "-" + cs + [c] == "-" + text;
  }

  /** Every cluster has one of these forms: the first option that may or must have an argument ends it. */
  lemma {:induction false} EveryCluster(optstring: string, text: string)
    ensures Bare(optstring, text)
         || exists i, n :: 0 <= i < |text| && Bare(optstring, text[..i]) && 1 <= n <= 2 && Colons(optstring, text[i], n)
  {
    if text != "" && !Bare(optstring, text) {
      var front, c := text[..|text| - 1], text[|text| - 1];
      EveryCluster(optstring, front);
      KindIs(optstring, c);
      if Bare(optstring, front) {
        assert Colons(optstring, text[|front|], 1) || Colons(optstring, text[|front|], 2);
      } else {
        var i, n :| 0 <= i < |front| && Bare(optstring, front[..i]) && 1 <= n <= 2 && Colons(optstring, front[i], n);
        assert front[..i] == text[..i] && front[i] == text[i];
      }
    }
  }

  /** Every element has one of the forms; and the text of a long option is a name, or a name and a value. */
  lemma EveryElement(t: Table, x: string)
    ensures x == "--" || x == "-" || x == "" || x[0] != '-'
         || (t.longopts.Some? && exists text :: text != "" && x == "--" + text)
         || exists text :: IsCluster(t, text) && x == "-" + text
  {
    if x != "--" && x != "-" && x != "" && x[0] == '-' {
      assert x == "-" + x[1..];
      if x[1] == '-' && t.longopts.Some? {
        assert x == "--" + x[2..];
      } else {
        assert IsCluster(t, x[1..]);
      }
    }
  }

  lemma EveryText(text: string)
    ensures '=' !in text || exists key, v :: '=' !in key && text == key + "=" + v
  {
    var i := IndexOf(text, '=');
    if i < |text| {
      assert text == text[..i] + "=" + text[i + 1..];
    }
  }

  // ---------- a caller ----------

  function LongOptions(): seq<LongOption> {
    [LongOption("help", NoArgument, 0, 'h' as int), LongOption("version", NoArgument, 0, 'V' as int),
     LongOption("hostname", RequiredArgument, 0, 'n' as int), LongOption("port", RequiredArgument, 0, 'p' as int),
     LongOption("regression", NoArgument, 0, 'r' as int), LongOption("quiet", NoArgument, 0, 'q' as int)]
  }

  lemma HostnameMeans(opts: seq<LongOption>)
    requires opts == LongOptions()
    ensures Means(opts, "hostname", 2) && Means(opts, "ho", 2) && MeansTooMuch(opts, "h")
    ensures opts[2] == LongOption("hostname", RequiredArgument, 0, 'n' as int)
  {
    assert forall i :: 0 <= i < |opts| ==> opts[i].name[0] == "hvhprq"[i] && |opts[i].name| > 1;
    assert opts[0].name[1] == 'e' && opts[2].name[1] == 'o';
    assert "h" <= opts[0].name && "h" <= opts[2].name && "ho" <= opts[2].name;
    assert !("ho" <= opts[0].name) && !("ho" <= opts[1].name);
  }

  /** The tables of the regression test: the host, under its name or an abbreviation, and one that means two options. */
  lemma HostnameIsTold(opts: seq<LongOption>, v: string, rest: seq<string>) returns (o: Outcome, p: Outcome)
    requires opts == LongOptions()
    ensures o == Outcome('n' as int, Some(v), None, Some(2), None)
    ensures p == Outcome('?' as int, None, Some(0), None, None)
    ensures var t := Table("hVn:p:rq", Some(opts));
            && Reads(t, ["--" + "hostname" + "=" + v], [o], rest) && Reads(t, ["--" + "hostname", v], [o], rest)
            && Reads(t, ["--" + "ho", v], [o], rest) && Reads(t, ["--" + "h"], [p], rest)
  {
    HostnameMeans(opts);
    o, p := HostIsTold(Table("hVn:p:rq", Some(opts)), opts, v, rest);
  }

  lemma HostIsTold(t: Table, opts: seq<LongOption>, v: string, rest: seq<string>) returns (o: Outcome, p: Outcome)
    requires t.longopts == Some(opts) && Means(opts, "hostname", 2) && Means(opts, "ho", 2) && MeansTooMuch(opts, "h")
    requires opts[2] == LongOption("hostname", RequiredArgument, 0, 'n' as int)
    ensures o == Outcome('n' as int, Some(v), None, Some(2), None)
    ensures p == Outcome('?' as int, None, Some(0), None, None)
    ensures Reads(t, ["--" + "hostname" + "=" + v], [o], rest) && Reads(t, ["--" + "hostname", v], [o], rest)
    ensures Reads(t, ["--" + "ho", v], [o], rest) && Reads(t, ["--" + "h"], [p], rest)
  {
    o := LongWithValue(t, opts, "hostname", v, 2, rest);
    var q := LongWithNext(t, opts, "hostname", v, 2, rest);
    var r := LongWithNext(t, opts, "ho", v, 2, rest);
    p := LongIsNone(t, opts, "h", "", rest);
  }
}
