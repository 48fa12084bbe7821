/**
 What the elements of an argument list mean to getopt: which are options, which option a text denotes, whether
 the next element is its argument, and what the caller is told.
 */
module Options {
  import opened Wrappers

  datatype HasArg = NoArgument | RequiredArgument | OptionalArgument

  datatype LongOption = LongOption(name: string, hasArg: HasArg, flag: int, val: int)

  /** The option tables of a caller; without long options `--x` is a cluster of short ones. */
  datatype Table = Table(optstring: string, longopts: Option<seq<LongOption>>)

  const TERMINATOR := "--"

  // ---------- what an element is ----------

  /** An argument that does not begin with a dash, or is nothing else. */
  predicate NonOption(arg: string) {
    |arg| < 2 || arg[0] != '-'
  }

  datatype ShortKind = Unknown | Plain | Requires | Allows

  function IndexOf(s: string, c: char): (i: nat)
    ensures i <= |s| && (i < |s| ==> s[i] == c)
    ensures forall j :: 0 <= j < i ==> s[j] != c
  {
    if s == "" || s[0] == c then 0 else 1 + IndexOf(s[1..], c)
  }

  /** What the option string says of a character: where it first occurs, and how many colons follow. */
  function ShortKindOf(optstring: string, c: char): ShortKind {
    var i := IndexOf(optstring, c);
    if i == |optstring| || c == ':' then Unknown
    else if i + 1 < |optstring| && optstring[i + 1] == ':' then
      if i + 2 < |optstring| && optstring[i + 2] == ':' then Allows else Requires
    else Plain
  }

  /** Whether a cluster of short options ends in one that must take the next element as its argument. */
  predicate ClusterTakesNext(optstring: string, cluster: string) {
    cluster != "" &&
    match ShortKindOf(optstring, cluster[0])
    case Requires => |cluster| == 1
    case Allows => false
    case _ => ClusterTakesNext(optstring, cluster[1..])
  }

  datatype Match = Ambiguous | NotFound | Found(index: nat)

  predicate Abbreviates(key: string, name: string) {
    key <= name
  }

  predicate Alike(p: LongOption, q: LongOption) {
    p.hasArg == q.hasArg && p.flag == q.flag && p.val == q.val
  }

  /** The first option of that name. */
  function ExactIndex(longopts: seq<LongOption>, key: string): (i: nat)
    ensures i <= |longopts| && (i < |longopts| ==> longopts[i].name == key)
    ensures forall j :: 0 <= j < i ==> longopts[j].name != key
  {
    if longopts == [] || longopts[0].name == key then 0 else 1 + ExactIndex(longopts[1..], key)
  }

  /** The first option that the key abbreviates. */
  function AbbreviatedIndex(longopts: seq<LongOption>, key: string): (i: nat)
    ensures i <= |longopts| && (i < |longopts| ==> Abbreviates(key, longopts[i].name))
    ensures forall j :: 0 <= j < i ==> !Abbreviates(key, longopts[j].name)
  {
    if longopts == [] || Abbreviates(key, longopts[0].name) then 0 else 1 + AbbreviatedIndex(longopts[1..], key)
  }

  /** Another abbreviated option differs from the `i`-th. */
  predicate Differs(longopts: seq<LongOption>, key: string, i: nat)
    requires i < |longopts|
  {
    exists j :: 0 <= j < |longopts| && Abbreviates(key, longopts[j].name) && !Alike(longopts[i], longopts[j])
  }

  /** The first option of that name, or else the first that it abbreviates, if the others are alike. */
  function MatchOf(longopts: seq<LongOption>, key: string): (m: Match)
    ensures m.Found? ==> m.index < |longopts|
  {
    var exact, some := ExactIndex(longopts, key), AbbreviatedIndex(longopts, key);
    if exact < |longopts| then Found(exact)
    else if some == |longopts| then NotFound
    else if Differs(longopts, key, some) then Ambiguous
    else Found(some)
  }

  /** The text of a long option up to its equals sign. */
  function KeyOf(text: string): string {
    text[..IndexOf(text, '=')]
  }

  predicate LongTakesNext(longopts: seq<LongOption>, text: string) {
    && KeyOf(text) == text
    && MatchOf(longopts, text).Found? && longopts[MatchOf(longopts, text).index].hasArg == RequiredArgument
  }

  predicate IsLong(t: Table, arg: string)
    requires |arg| >= 2
  {
    t.longopts.Some? && arg[1] == '-'
  }

  predicate TakesNext(t: Table, arg: string)
    requires |arg| >= 2
  {
    if IsLong(t, arg) then LongTakesNext(t.longopts.value, arg[2..]) else ClusterTakesNext(t.optstring, arg[1..])
  }

  /** The elements an option spans: its argument is the next one, if there is a next one. */
  function Width(t: Table, args: seq<string>): (w: nat)
    requires args != [] && !NonOption(args[0])
    ensures 1 <= w <= |args| && w <= 2
  {
    if TakesNext(t, args[0]) && |args| > 1 then 2 else 1
  }

  // ---------- what the caller is told ----------

  const QUESTION: int := '?' as int

  /**
   The return value of a call, the argument of the option, the offending option where there is one, the index of
   a long option, and the flag it sets.
   */
  datatype Outcome = Outcome(code: int, optarg: Option<string>, optopt: Option<int>, longind: Option<nat>,
                             flagged: Option<(int, int)>)

  function Plainly(code: int, optarg: Option<string>): Outcome {
    Outcome(code, optarg, None, None, None)
  }

  function Failure(code: int, optopt: int): Outcome {
    Outcome(code, None, Some(optopt), None, None)
  }

  /** The code for an argument that is missing: a colon for callers that ask for it. */
  function MissingCode(optstring: string): int {
    if optstring != "" && optstring[0] == ':' then ':' as int else QUESTION
  }

  /** A short option, what follows it in its element, and the next element. */
  function ShortOutcome(optstring: string, c: char, rest: string, next: Option<string>): Outcome {
    match ShortKindOf(optstring, c)
    case Unknown => Failure(QUESTION, c as int)
    case Plain => Plainly(c as int, None)
    case Allows => Plainly(c as int, if rest != "" then Some(rest) else None)
    case Requires =>
      if rest != "" then Plainly(c as int, Some(rest))
      else if next.Some? then Plainly(c as int, next)
      else Failure(MissingCode(optstring), c as int)
  }

  /** A cluster of short options, up to one that takes the rest of it or the next element. */
  function ClusterOutcomes(optstring: string, cluster: string, next: Option<string>): seq<Outcome> {
    if cluster == "" then []
    else
      var first := ShortOutcome(optstring, cluster[0], cluster[1..], next);
      match ShortKindOf(optstring, cluster[0])
      case Requires => [first]
      case Allows => [first]
      case _ => [first] + ClusterOutcomes(optstring, cluster[1..], next)
  }

  /** A long option that was found, with its argument. */
  function LongFound(p: LongOption, index: nat, optarg: Option<string>): Outcome {
    if p.flag != 0 then Outcome(0, optarg, None, Some(index), Some((p.flag, p.val)))
    else Outcome(p.val, optarg, None, Some(index), None)
  }

  function LongOutcome(optstring: string, longopts: seq<LongOption>, text: string, next: Option<string>): Outcome {
    var key := KeyOf(text);
    match MatchOf(longopts, key)
    case Ambiguous => Failure(QUESTION, 0)
    case NotFound => Failure(QUESTION, 0)
    case Found(index) =>
      var p := longopts[index];
      if |key| < |text| then
        if p.hasArg != NoArgument then LongFound(p, index, Some(text[|key| + 1..])) else Failure(QUESTION, p.val)
      else if p.hasArg == RequiredArgument then
        if next.Some? then LongFound(p, index, next) else Failure(MissingCode(optstring), p.val)
      else LongFound(p, index, None)
  }

  function NextOf(args: seq<string>): Option<string> {
    if |args| > 1 then Some(args[1]) else None
  }

  function ElementOutcomes(t: Table, args: seq<string>): seq<Outcome>
    requires args != [] && !NonOption(args[0])
  {
    if IsLong(t, args[0]) then [LongOutcome(t.optstring, t.longopts.value, args[0][2..], NextOf(args))]
    else ClusterOutcomes(t.optstring, args[0][1..], NextOf(args))
  }

  /** What the calls of a scan return, element by element of the list as the caller gave it. */
  function Outcomes(t: Table, args: seq<string>): seq<Outcome>
    decreases |args|
  {
    if args == [] || args[0] == TERMINATOR then []
    else if NonOption(args[0]) then Outcomes(t, args[1..])
    else ElementOutcomes(t, args) + Outcomes(t, args[Width(t, args)..])
  }

  /** Behind the terminator nothing is read as an option. */
  lemma {:induction false} NothingBehindTheTerminator(t: Table, args: seq<string>, more: seq<string>)
    requires Complete(t, args)
    ensures Outcomes(t, args + [TERMINATOR] + more) == Outcomes(t, args)
    decreases |args|
  {
    var all := args + [TERMINATOR] + more;
    if args != [] {
      var k := if NonOption(args[0]) then 1 else Width(t, args);
      NothingBehindTheTerminator(t, args[k..], more);
      assert all[k..] == args[k..] + [TERMINATOR] + more;
      if !NonOption(args[0]) {
        NextMattersIfTaken(t, args, all);
        assert Outcomes(t, all) == ElementOutcomes(t, args) + Outcomes(t, all[k..]);
      } else {
        assert Outcomes(t, all) == Outcomes(t, all[k..]);
      }
    }
  }

  /** The next element makes a difference only to an option that takes it. */
  lemma NextMattersIfTaken(t: Table, a: seq<string>, b: seq<string>)
    requires a != [] && b != [] && a[0] == b[0] && !NonOption(a[0])
    requires TakesNext(t, a[0]) ==> |a| > 1 && |b| > 1 && a[1] == b[1]
    ensures ElementOutcomes(t, a) == ElementOutcomes(t, b)
  {
    if !TakesNext(t, a[0]) && !IsLong(t, a[0]) {
      ClusterIgnoresNext(t.optstring, a[0][1..], NextOf(a), NextOf(b));
    }
  }

  lemma {:induction false} ClusterIgnoresNext(optstring: string, cluster: string, a: Option<string>, b: Option<string>)
    requires !ClusterTakesNext(optstring, cluster)
    ensures ClusterOutcomes(optstring, cluster, a) == ClusterOutcomes(optstring, cluster, b)
  {
    if cluster != "" && (ShortKindOf(optstring, cluster[0]).Plain? || ShortKindOf(optstring, cluster[0]).Unknown?) {
      ClusterIgnoresNext(optstring, cluster[1..], a, b);
    }
  }

  /** No terminator and no option that lacks its argument. */
  predicate Complete(t: Table, args: seq<string>)
    decreases |args|
  {
    args == [] ||
    (if args[0] == TERMINATOR then false
     else if NonOption(args[0]) then Complete(t, args[1..])
     else if TakesNext(t, args[0]) then |args| > 1 && Complete(t, args[2..])
     else Complete(t, args[1..]))
  }

  // ---------- a scan in the middle of an element ----------

  /** What is still to come at an element, of which only the cluster `left` remains to be read if that is not empty. */
  function StillToCome(t: Table, args: seq<string>, left: string): seq<Outcome>
    requires left != "" ==> args != [] && !NonOption(args[0])
  {
    if left == "" then Outcomes(t, args)
    else ClusterOutcomes(t.optstring, left, NextOf(args)) + Outcomes(t, args[Width(t, args)..])
  }

  lemma HeadFirst(first: Outcome, more: seq<Outcome>, rest: seq<Outcome>)
    ensures [first] + more + rest == [first] + (more + rest)
  {
  }

  /** A long option is one outcome. */
  lemma LongIsNext(t: Table, args: seq<string>)
    requires args != [] && !NonOption(args[0]) && args[0] != TERMINATOR && IsLong(t, args[0])
    ensures Outcomes(t, args)
         == [LongOutcome(t.optstring, t.longopts.value, args[0][2..], NextOf(args))]
            + Outcomes(t, args[Width(t, args)..])
  {
  }

  /** What remains of a cluster when its first option has been read. */
  function LeftOver(optstring: string, cluster: string): string
    requires cluster != ""
  {
    match ShortKindOf(optstring, cluster[0])
    case Requires => ""
    case Allows => ""
    case _ => cluster[1..]
  }

  /** A short option is one outcome, and leaves the rest of its cluster unless it ends it. */
  lemma ShortIsNext(t: Table, args: seq<string>, left: string)
    requires args != [] && !NonOption(args[0]) && left != ""
    ensures StillToCome(t, args, left)
         == [ShortOutcome(t.optstring, left[0], left[1..], NextOf(args))]
            + if LeftOver(t.optstring, left) != "" then StillToCome(t, args, LeftOver(t.optstring, left))
              else Outcomes(t, args[Width(t, args)..])
  {
    var first := ShortOutcome(t.optstring, left[0], left[1..], NextOf(args));
    HeadFirst(first, ClusterOutcomes(t.optstring, left[1..], NextOf(args)), Outcomes(t, args[Width(t, args)..]));
    assert [] + Outcomes(t, args[Width(t, args)..]) == Outcomes(t, args[Width(t, args)..]);
  }
}
