/**
 A HID report descriptor as a program: the item state machine of sections 6.2.2.4 to 6.2.2.8 of the
 Device Class Definition for HID 1.11.

 Global items change a table that persists (Push and Pop save and restore it), local items describe only
 the next main item, and an Input, Output or Feature item appends REPORT_COUNT fields of REPORT_SIZE bits
 to the report named by the current REPORT_ID.
 */
module HidInterpreter {
  import opened Bits
  import opened Wrappers
  import opened HidItems

  datatype ReportKind = Input | Output | Feature

  /** Each report kind and report ID has a bit string of its own. */
  datatype Key = Key(kind: ReportKind, id: nat)

  datatype Usage = Usage(page: nat, id: nat)

  datatype Globals = Globals(
    usagePage: nat, logicalMin: int, logicalMax: int, reportSize: nat, reportCount: nat, reportId: nat)

  datatype Env = Env(globals: Globals, stack: seq<Globals>)

  datatype Locals = Locals(usages: seq<Usage>, usageMin: Option<nat>)

  datatype Field = Field(
    key: Key, offset: nat, size: nat, constant: bool, variable: bool, usage: Option<Usage>,
    logicalMin: int, logicalMax: int)

  datatype State = State(env: Env, locals: Locals, depth: nat, lengths: map<Key, nat>, fields: seq<Field>)

  datatype Error = UnbalancedEnd | PopOfEmpty | ReportIdZero | BadUsageRange | Delimiter

  const COLLECTION := 10
  const END_COLLECTION := 12

  const NO_LOCALS := Locals([], None)
  const INITIAL_ENV := Env(Globals(0, 0, 0, 0, 0, 0), [])
  const INITIAL := State(INITIAL_ENV, NO_LOCALS, 0, map[], [])

  // ---------------------------------------------------------------- items

  /** The report kind of a main item that declares fields. */
  function DataKind(i: ShortItem): (k: Option<ReportKind>) {
    if i.kind != MAIN then None
    else if i.tag == 8 then Some(Input)
    else if i.tag == 9 then Some(Output)
    else if i.tag == 11 then Some(Feature)
    else None
  }

  function SignedData(i: ShortItem): (r: int) {
    Signed(LittleEndian(i.data), 8 * |i.data|)
  }

  /** The effect of an item on the global table; only global items have one. */
  function NextEnv(env: Env, i: ShortItem): (r: Result<Env, Error>) {
    var g, value := env.globals, LittleEndian(i.data);
    if i.kind != GLOBAL then Ok(env)
    else if i.tag == 0 then Ok(env.(globals := g.(usagePage := value)))
    else if i.tag == 1 then Ok(env.(globals := g.(logicalMin := SignedData(i))))
    else if i.tag == 2 then Ok(env.(globals := g.(logicalMax := SignedData(i))))
    else if i.tag == 7 then Ok(env.(globals := g.(reportSize := value)))
    else if i.tag == 8 then if value == 0 then Err(ReportIdZero) else Ok(env.(globals := g.(reportId := value)))
    else if i.tag == 9 then Ok(env.(globals := g.(reportCount := value)))
    else if i.tag == 10 then Ok(env.(stack := env.stack + [g]))
    else if i.tag == 11 then
      if env.stack == [] then Err(PopOfEmpty) else Ok(Env(env.stack[|env.stack| - 1], env.stack[..|env.stack| - 1]))
    else Ok(env)
  }

  /** A four-byte usage names its page in its upper half; shorter ones are on the current page. */
  function UsageOf(env: Env, i: ShortItem): (u: Usage) {
    var value := LittleEndian(i.data);
    if |i.data| == 4 then Usage(value / 0x10000, value % 0x10000) else Usage(env.globals.usagePage, value)
  }

  function UsageRange(page: nat, lo: nat, hi: nat): (us: seq<Usage>)
    decreases hi + 1 - lo
  {
    if lo > hi then [] else [Usage(page, lo)] + UsageRange(page, lo + 1, hi)
  }

  function NextLocals(env: Env, l: Locals, i: ShortItem): (r: Result<Locals, Error>) {
    var u := UsageOf(env, i);
    if i.kind == MAIN then Ok(NO_LOCALS)
    else if i.kind != LOCAL then Ok(l)
    else if i.tag == 0 then Ok(l.(usages := l.usages + [u]))
    else if i.tag == 1 then Ok(l.(usageMin := Some(u.id)))
    else if i.tag == 2 then
      if l.usageMin.None? || l.usageMin.value > u.id then Err(BadUsageRange)
      else Ok(Locals(l.usages + UsageRange(u.page, l.usageMin.value, u.id), None))
    else if i.tag == 10 then Err(Delimiter)
    else Ok(l)
  }

  /** Control `j` takes usage `j`; when the usages run out the last one is repeated (section 6.2.2.8). */
  function UsageAt(usages: seq<Usage>, j: nat): (u: Option<Usage>) {
    if usages == [] then None
    else if j < |usages| then Some(usages[j])
    else Some(usages[|usages| - 1])
  }

  /** Fields number `j` to `count - 1` of one main item, the first of them shaped and placed like `proto`. */
  function MakeFields(proto: Field, usages: seq<Usage>, j: nat, count: nat): (fs: seq<Field>)
    decreases count - j
  {
    if j >= count then []
    else [proto.(usage := UsageAt(usages, j))]
         + MakeFields(proto.(offset := proto.offset + proto.size), usages, j + 1, count)
  }

  function Length(s: State, k: Key): (n: nat) {
    if k in s.lengths then s.lengths[k] else 0
  }

  /** Input, Output and Feature items: section 6.2.2.5. */
  function AddFields(s: State, kind: ReportKind, flags: nat): (r: State) {
    var g := s.env.globals;
    var k := Key(kind, g.reportId);
    var at := Length(s, k);
    var proto := Field(k, at, g.reportSize, flags % 2 == 1, flags / 2 % 2 == 1, None, g.logicalMin, g.logicalMax);
    s.(lengths := s.lengths[k := at + g.reportSize * g.reportCount],
       fields := s.fields + MakeFields(proto, s.locals.usages, 0, g.reportCount))
  }

  function MainStep(s: State, i: ShortItem): (r: Result<State, Error>) {
    match DataKind(i)
    case Some(kind) => Ok(AddFields(s, kind, LittleEndian(i.data)))
    case None =>
      if i.kind == MAIN && i.tag == COLLECTION then Ok(s.(depth := s.depth + 1))
      else if i.kind == MAIN && i.tag == END_COLLECTION then
        if s.depth == 0 then Err(UnbalancedEnd) else Ok(s.(depth := s.depth - 1))
      else Ok(s)
  }

  function Step(s: State, i: ShortItem): (r: Result<State, Error>) {
    match NextEnv(s.env, i)
    case Err(e) => Err(e)
    case Ok(env) =>
      match NextLocals(s.env, s.locals, i)
      case Err(e) => Err(e)
      case Ok(locals) =>
        match MainStep(s, i)
        case Err(e) => Err(e)
        case Ok(t) => Ok(t.(env := env, locals := locals))
  }

  function Run(items: seq<ShortItem>, s: State): (r: Result<State, Error>)
    decreases |items|
  {
    if items == [] then Ok(s)
    else
      match Step(s, items[0])
      case Err(e) => Err(e)
      case Ok(t) => Run(items[1..], t)
  }

  // ---------------------------------------------------------------- compositionality

  /** Running a concatenation is running the second part from where the first part stopped. */
  lemma {:induction false} RunConcat(a: seq<ShortItem>, b: seq<ShortItem>, s: State)
    ensures Run(a + b, s) == match Run(a, s) case Err(e) => Err(e) case Ok(t) => Run(b, t)
    decreases |a|
  {
    if a == [] {
      assert a + b == b;
    } else {
      assert (a + b)[1..] == a[1..] + b;
      match Step(s, a[0])
      case Err(e) =>
      case Ok(t) => RunConcat(a[1..], b, t);
    }
  }

  /** The same run folded from the left: the state after the first `n` items. */
  function RunPrefix(items: seq<ShortItem>, n: nat, s: State): (r: Result<State, Error>)
    requires n <= |items|
    decreases n
  {
    if n == 0 then Ok(s)
    else match RunPrefix(items, n - 1, s)
      case Err(e) => Err(e)
      case Ok(t) => Step(t, items[n - 1])
  }

  lemma {:induction false} RunPrefixIsRun(items: seq<ShortItem>, n: nat, s: State)
    requires n <= |items|
    ensures RunPrefix(items, n, s) == Run(items[..n], s)
  {
    if n == 0 {
    } else {
      RunPrefixIsRun(items, n - 1, s);
      assert items[..n] == items[..n - 1] + [items[n - 1]];
      RunConcat(items[..n - 1], [items[n - 1]], s);
    }
  }

  lemma {:induction false} RunWhole(items: seq<ShortItem>, s: State)
    ensures RunPrefix(items, |items|, s) == Run(items, s)
  {
    RunPrefixIsRun(items, |items|, s);
    assert items[..|items|] == items;
  }

  // ---------------------------------------------------------------- what is refused

  /** The usage maximum has a minimum before it, and is not below it. */
  predicate ClosesRange(s: State, i: ShortItem) {
    s.locals.usageMin.Some? && s.locals.usageMin.value <= UsageOf(s.env, i).id
  }

  /** Exactly five things are refused, each with an error of its own. */
  lemma StepRefuses(s: State, i: ShortItem)
    ensures Step(s, i) == Err(UnbalancedEnd) <==> i.kind == 0 && i.tag == 12 && s.depth == 0
    ensures Step(s, i) == Err(PopOfEmpty) <==> IsPop(i) && s.env.stack == []
    ensures Step(s, i) == Err(ReportIdZero) <==> i.kind == 1 && i.tag == 8 && LittleEndian(i.data) == 0
    ensures Step(s, i) == Err(BadUsageRange) <==> i.kind == 2 && i.tag == 2 && !ClosesRange(s, i)
    ensures Step(s, i) == Err(Delimiter) <==> i.kind == 2 && i.tag == 10
  {
  }

  /** An item list is refused for its first item that is, in the state that the items before it leave. */
  lemma {:induction false} RunRefuses(items: seq<ShortItem>, s: State) returns (n: nat)
    requires Run(items, s).Err?
    ensures n < |items| && Run(items[..n], s).Ok?
    ensures Step(Run(items[..n], s).value, items[n]) == Err(Run(items, s).error)
    decreases |items|
  {
    if Step(s, items[0]).Err? {
      n := 0;
    } else {
      var m := RunRefuses(items[1..], Step(s, items[0]).value);
      n := m + 1;
      assert items[..n][1..] == items[1..][..m];
    }
  }

  // ---------------------------------------------------------------- Push and Pop

  predicate IsPush(i: ShortItem) {
    i.kind == GLOBAL && i.tag == 10
  }

  predicate IsPop(i: ShortItem) {
    i.kind == GLOBAL && i.tag == 11
  }

  /** The items pop what they push, and the `d` tables below, and nothing further down. */
  predicate Nested(items: seq<ShortItem>, d: nat)
    decreases |items|
  {
    if items == [] then d == 0
    else if IsPush(items[0]) then Nested(items[1..], d + 1)
    else if IsPop(items[0]) then d > 0 && Nested(items[1..], d - 1)
    else Nested(items[1..], d)
  }

  lemma {:induction false} StackBelow(items: seq<ShortItem>, d: nat, s: State)
    requires Run(items, s).Ok? && Nested(items, d) && d <= |s.env.stack|
    ensures Run(items, s).value.env.stack == s.env.stack[..|s.env.stack| - d]
    decreases |items|
  {
    if items == [] {
    } else {
      var i, t := items[0], Step(s, items[0]).value;
      StackStep(s, i);
      StackBelow(items[1..], if IsPush(i) then d + 1 else if IsPop(i) then d - 1 else d, t);
    }
  }

  lemma StackStep(s: State, i: ShortItem)
    requires Step(s, i).Ok?
    ensures var t := Step(s, i).value;
            if IsPush(i) then t.env == Env(s.env.globals, s.env.stack + [s.env.globals])
            else if IsPop(i) then
              && s.env.stack != []
              && t.env == Env(s.env.stack[|s.env.stack| - 1], s.env.stack[..|s.env.stack| - 1])
            else t.env.stack == s.env.stack
  {
  }

  /** Whatever is done between a Push and its Pop, the global table is afterwards as it was before. */
  lemma {:induction false} PushPopTheorem(push: ShortItem, items: seq<ShortItem>, pop: ShortItem, s: State)
    requires IsPush(push) && IsPop(pop) && Nested(items, 0) && Run([push] + (items + [pop]), s).Ok?
    ensures Run([push] + (items + [pop]), s).value.env == s.env
  {
    var s1 := Step(s, push).value;
    assert ([push] + (items + [pop]))[1..] == items + [pop];
    StackStep(s, push);
    RunConcat(items, [pop], s1);
    StackBelow(items, 0, s1);
    var s2 := Run(items, s1).value;
    assert [pop][1..] == [];
    StackStep(s2, pop);
  }

  // ---------------------------------------------------------------- what one Input item adds

  /** Control `j` gets usage `j`, or the last one if there are fewer. */
  function RepeatedUsage(usages: seq<Usage>, j: nat): (u: Option<Usage>) {
    if usages == [] then None else Some(usages[if j < |usages| then j else |usages| - 1])
  }

  /** Field number `j` that an Input item with these flags adds in state `s`. */
  function InputField(s: State, flags: nat, j: nat): (f: Field) {
    var g := s.env.globals;
    var k := Key(Input, g.reportId);
    Field(k, Length(s, k) + j * g.reportSize, g.reportSize, flags % 2 == 1, flags / 2 % 2 == 1,
          RepeatedUsage(s.locals.usages, j), g.logicalMin, g.logicalMax)
  }

  lemma {:induction false} MakeFieldsAt(proto: Field, usages: seq<Usage>, j: nat, count: nat, i: nat)
    requires j + i < count
    ensures var fs := MakeFields(proto, usages, j, count);
            && |fs| == count - j
            && fs[i] == proto.(offset := proto.offset + i * proto.size, usage := UsageAt(usages, j + i))
    decreases i
  {
    var next := proto.(offset := proto.offset + proto.size);
    if i == 0 {
      MakeFieldsLength(proto, usages, j, count);
    } else {
      MakeFieldsAt(next, usages, j + 1, count, i - 1);
      assert proto.offset + i * proto.size == next.offset + (i - 1) * proto.size;
    }
  }

  lemma {:induction false} MakeFieldsLength(proto: Field, usages: seq<Usage>, j: nat, count: nat)
    requires j <= count
    ensures |MakeFields(proto, usages, j, count)| == count - j
    decreases count - j
  {
    if j == count {
    } else {
      MakeFieldsLength(proto.(offset := proto.offset + proto.size), usages, j + 1, count);
    }
  }

  lemma {:induction false} InputMakes(s: State, flags: nat, fs: seq<Field>, proto: Field)
    requires |fs| == s.env.globals.reportCount && proto == InputField(s, flags, 0).(usage := None)
    requires forall j | 0 <= j < |fs| :: fs[j] == InputField(s, flags, j)
    ensures MakeFields(proto, s.locals.usages, 0, |fs|) == fs
  {
    MakeFieldsLength(proto, s.locals.usages, 0, |fs|);
    forall j | 0 <= j < |fs|
      ensures MakeFields(proto, s.locals.usages, 0, |fs|)[j] == fs[j]
    {
      MakeFieldsAt(proto, s.locals.usages, 0, |fs|, j);
    }
  }

  /** An Input item adds these fields, lengthens its report, forgets the locals and changes nothing else. */
  lemma InputAdds(s: State, i: ShortItem, fs: seq<Field>)
    requires DataKind(i) == Some(Input) && |fs| == s.env.globals.reportCount
    requires forall j | 0 <= j < |fs| :: fs[j] == InputField(s, LittleEndian(i.data), j)
    ensures var k := Key(Input, s.env.globals.reportId);
            Step(s, i) == Ok(s.(locals := NO_LOCALS, fields := s.fields + fs,
                                lengths := s.lengths[k := Length(s, k) + s.env.globals.reportSize * |fs|]))
  {
    InputMakes(s, LittleEndian(i.data), fs, InputField(s, LittleEndian(i.data), 0).(usage := None));
  }

  // ---------------------------------------------------------------- nesting

  /** The number of main items with this tag among the first `n`. */
  function MainItems(items: seq<ShortItem>, n: nat, tag: nat): (count: nat)
    requires n <= |items|
    decreases n
  {
    if n == 0 then 0
    else MainItems(items, n - 1, tag) + (if items[n - 1].kind == MAIN && items[n - 1].tag == tag then 1 else 0)
  }

  lemma StepNesting(s: State, i: ShortItem)
    requires Step(s, i).Ok?
    ensures Step(s, i).value.depth == s.depth
      + (if i.kind == MAIN && i.tag == COLLECTION then 1 else 0)
      - (if i.kind == MAIN && i.tag == END_COLLECTION then 1 else 0)
  {
  }

  /** A prefix of an accepted item list is accepted. */
  lemma {:induction false} PrefixAccepted(items: seq<ShortItem>, n: nat, s: State)
    requires n <= |items| && Run(items, s).Ok?
    ensures RunPrefix(items, n, s).Ok?
  {
    RunPrefixIsRun(items, n, s);
    RunConcat(items[..n], items[n..], s);
    assert items[..n] + items[n..] == items;
  }

  /** No prefix of an accepted descriptor closes more collections than are open; the difference is the nesting. */
  lemma {:induction false} NestingTheorem(items: seq<ShortItem>, n: nat, s: State)
    requires n <= |items| && Run(items, s).Ok?
    ensures RunPrefix(items, n, s).Ok?
    ensures RunPrefix(items, n, s).value.depth
         == s.depth + MainItems(items, n, COLLECTION) - MainItems(items, n, END_COLLECTION)
  {
    PrefixAccepted(items, n, s);
    if n == 0 {
    } else {
      NestingTheorem(items, n - 1, s);
      StepNesting(RunPrefix(items, n - 1, s).value, items[n - 1]);
    }
  }

  lemma {:induction false} MainItemsConcat(a: seq<ShortItem>, b: seq<ShortItem>, n: nat, tag: nat)
    requires n <= |a + b|
    ensures MainItems(a + b, n, tag) ==
            if n <= |a| then MainItems(a, n, tag) else MainItems(a, |a|, tag) + MainItems(b, n - |a|, tag)
  {
    if n == 0 {
    } else {
      MainItemsConcat(a, b, n - 1, tag);
    }
  }

  lemma {:induction false} MainItemsGrow(items: seq<ShortItem>, n: nat, tag: nat)
    requires n <= |items|
    ensures MainItems(items, n, tag) <= MainItems(items, |items|, tag)
    decreases |items| - n
  {
    if n < |items| {
      MainItemsGrow(items, n + 1, tag);
    }
  }

  // ---------------------------------------------------------------- what a descriptor declares

  /** The global table after an item, as far as the item is legal. */
  function EnvAfter(env: Env, i: ShortItem): (r: Env) {
    match NextEnv(env, i) case Ok(e) => e case Err(_) => env
  }

  /** Whether item `i`, met under `env`, declares fields of report `k`. */
  predicate Declares(env: Env, i: ShortItem, k: Key) {
    && i.kind == 0
    && i.tag == (if k.kind == Input then 8 else if k.kind == Output then 9 else 11)
    && env.globals.reportId == k.id
  }

  /**
   The number of bits of report `k`: the sum of REPORT_SIZE * REPORT_COUNT over the main items met while
   `k` is current. Nothing but the global table is consulted.
   */
  function DeclaredBits(items: seq<ShortItem>, env: Env, k: Key): (n: nat)
    decreases |items|
  {
    if items == [] then 0
    else
      (if Declares(env, items[0], k) then env.globals.reportSize * env.globals.reportCount else 0)
      + DeclaredBits(items[1..], EnvAfter(env, items[0]), k)
  }

  predicate Mentions(items: seq<ShortItem>, env: Env, k: Key)
    decreases |items|
  {
    items != [] && (Declares(env, items[0], k) || Mentions(items[1..], EnvAfter(env, items[0]), k))
  }

  // ---------------------------------------------------------------- layout

  /** The fields of one report, in the order they were declared. */
  function FieldsOf(fields: seq<Field>, k: Key): (fs: seq<Field>) {
    if fields == [] then []
    else (if fields[0].key == k then [fields[0]] else []) + FieldsOf(fields[1..], k)
  }

  /** The fields lie one after the other from bit `lo` up to bit `hi`. */
  predicate Tiles(fs: seq<Field>, lo: nat, hi: nat) {
    if fs == [] then lo == hi
    else fs[0].offset == lo && Tiles(fs[1..], lo + fs[0].size, hi)
  }

  lemma {:induction false} FieldsOfCons(f: Field, rest: seq<Field>, k: Key)
    ensures FieldsOf([f] + rest, k) == (if f.key == k then [f] else []) + FieldsOf(rest, k)
  {
    assert ([f] + rest)[1..] == rest;
  }

  lemma {:induction false} FieldsOfConcat(a: seq<Field>, b: seq<Field>, k: Key)
    ensures FieldsOf(a + b, k) == FieldsOf(a, k) + FieldsOf(b, k)
  {
    if a == [] {
      assert a + b == b;
    } else {
      var f, rest := a[0], a[1..];
      assert a == [f] + rest && a + b == [f] + (rest + b);
      FieldsOfCons(f, rest, k);
      FieldsOfCons(f, rest + b, k);
      FieldsOfConcat(rest, b, k);
    }
  }

  lemma {:induction false} TilesConcat(a: seq<Field>, b: seq<Field>, lo: nat, mid: nat, hi: nat)
    requires Tiles(a, lo, mid) && Tiles(b, mid, hi)
    ensures Tiles(a + b, lo, hi)
  {
    if a == [] {
      assert a + b == b;
    } else {
      TilesConcat(a[1..], b, lo + a[0].size, mid, hi);
      assert (a + b)[1..] == a[1..] + b;
    }
  }

  /** One main item adds adjacent fields to its own report and none to any other. */
  lemma {:induction false} MakeFieldsTiles(proto: Field, usages: seq<Usage>, j: nat, count: nat, k: Key)
    requires j <= count
    ensures var fs := MakeFields(proto, usages, j, count);
            && FieldsOf(fs, k) == (if proto.key == k then fs else [])
            && Tiles(fs, proto.offset, proto.offset + (count - j) * proto.size)
    decreases count - j
  {
    if j < count {
      var next := proto.(offset := proto.offset + proto.size);
      MakeFieldsTiles(next, usages, j + 1, count, k);
      var fs := MakeFields(proto, usages, j, count);
      assert fs[1..] == MakeFields(next, usages, j + 1, count);
      assert (count - j) * proto.size == proto.size + (count - (j + 1)) * proto.size;
    }
  }

  /** One main item that declares fields: what it does to report `k`. */
  lemma {:induction false} AddFieldsLayout(s: State, kind: ReportKind, flags: nat, k: Key)
    requires Tiles(FieldsOf(s.fields, k), 0, Length(s, k))
    ensures var t, g := AddFields(s, kind, flags), s.env.globals;
            var mine := k == Key(kind, g.reportId);
            && Tiles(FieldsOf(t.fields, k), 0, Length(t, k))
            && FieldsOf(s.fields, k) <= FieldsOf(t.fields, k)
            && Length(t, k) == Length(s, k) + (if mine then g.reportSize * g.reportCount else 0)
            && (!mine ==> FieldsOf(t.fields, k) == FieldsOf(s.fields, k))
  {
    var g := s.env.globals;
    var own := Key(kind, g.reportId);
    var at := Length(s, own);
    var proto := Field(own, at, g.reportSize, flags % 2 == 1, flags / 2 % 2 == 1, None, g.logicalMin, g.logicalMax);
    var fs := MakeFields(proto, s.locals.usages, 0, g.reportCount);
    MakeFieldsTiles(proto, s.locals.usages, 0, g.reportCount, k);
    FieldsOfConcat(s.fields, fs, k);
    if own == k {
      assert g.reportCount * g.reportSize == g.reportSize * g.reportCount;
      TilesConcat(FieldsOf(s.fields, k), fs, 0, at, at + g.reportSize * g.reportCount);
    } else {
      assert FieldsOf(s.fields, k) + [] == FieldsOf(s.fields, k);
    }
  }

  /** One legal item: what it does to report `k`. */
  lemma {:induction false} StepLayout(s: State, i: ShortItem, k: Key)
    requires Step(s, i).Ok?
    requires Tiles(FieldsOf(s.fields, k), 0, Length(s, k))
    ensures var t := Step(s, i).value;
            && t.env == EnvAfter(s.env, i)
            && Tiles(FieldsOf(t.fields, k), 0, Length(t, k))
            && FieldsOf(s.fields, k) <= FieldsOf(t.fields, k)
            && Length(t, k) == Length(s, k)
                 + (if Declares(s.env, i, k) then s.env.globals.reportSize * s.env.globals.reportCount else 0)
            && (!Declares(s.env, i, k) ==> FieldsOf(t.fields, k) == FieldsOf(s.fields, k))
  {
    if DataKind(i).Some? {
      AddFieldsLayout(s, DataKind(i).value, LittleEndian(i.data), k);
    }
  }

  /** The layout of report `k` is preserved, and grows by exactly the bits declared for it. */
  lemma {:induction false} RunLayout(items: seq<ShortItem>, s: State, k: Key)
    requires Run(items, s).Ok?
    requires Tiles(FieldsOf(s.fields, k), 0, Length(s, k))
    ensures var t := Run(items, s).value;
            && Tiles(FieldsOf(t.fields, k), 0, Length(t, k))
            && FieldsOf(s.fields, k) <= FieldsOf(t.fields, k)
            && Length(t, k) == Length(s, k) + DeclaredBits(items, s.env, k)
            && (!Mentions(items, s.env, k) ==> FieldsOf(t.fields, k) == FieldsOf(s.fields, k))
    decreases |items|
  {
    if items == [] {
    } else {
      StepLayout(s, items[0], k);
      RunLayout(items[1..], Step(s, items[0]).value, k);
    }
  }

  /** For every descriptor the interpreter accepts, the fields of every report tile exactly its declared bits. */
  lemma {:induction false} LayoutTheorem(items: seq<ShortItem>, k: Key)
    requires Run(items, INITIAL).Ok?
    ensures Tiles(FieldsOf(Run(items, INITIAL).value.fields, k), 0, DeclaredBits(items, INITIAL_ENV, k))
  {
    RunLayout(items, INITIAL, k);
  }

  /** Items that never declare report `k` leave its fields and its length alone, wherever they are run. */
  lemma {:induction false} OtherReportsUntouched(before: seq<ShortItem>, block: seq<ShortItem>, k: Key)
    requires Run(before, INITIAL).Ok? && Run(before + block, INITIAL).Ok?
    requires !Mentions(block, Run(before, INITIAL).value.env, k)
    ensures var s, t := Run(before, INITIAL).value, Run(before + block, INITIAL).value;
            FieldsOf(t.fields, k) == FieldsOf(s.fields, k) && Length(t, k) == Length(s, k)
  {
    RunConcat(before, block, INITIAL);
    RunLayout(before, INITIAL, k);
    RunLayout(block, Run(before, INITIAL).value, k);
    NotMentioned(block, Run(before, INITIAL).value.env, k);
  }

  /** Main items that declare no fields mention no report. */
  lemma {:induction false} NothingDeclared(items: seq<ShortItem>, env: Env, k: Key)
    requires forall i <- items :: DataKind(i).None?
    ensures !Mentions(items, env, k)
    decreases |items|
  {
    if items == [] {
    } else {
      assert DataKind(items[0]).None?;
      NothingDeclared(items[1..], EnvAfter(env, items[0]), k);
    }
  }

  /** Report ID items set the current report; so does Pop, which brings an earlier one back. */
  predicate ChangesReport(i: ShortItem) {
    i.kind == GLOBAL && (i.tag == 8 || i.tag == 11)
  }

  lemma {:induction false} OtherReportCurrent(items: seq<ShortItem>, env: Env, k: Key)
    requires env.globals.reportId != k.id && forall i <- items :: !ChangesReport(i)
    ensures !Mentions(items, env, k)
    decreases |items|
  {
    if items == [] {
    } else {
      assert !ChangesReport(items[0]) && EnvAfter(env, items[0]).globals.reportId == env.globals.reportId;
      OtherReportCurrent(items[1..], EnvAfter(env, items[0]), k);
    }
  }

  lemma {:induction false} MentionsConcat(a: seq<ShortItem>, b: seq<ShortItem>, s: State, t: State, k: Key)
    requires Run(a, s) == Ok(t) && !Mentions(a, s.env, k) && !Mentions(b, t.env, k)
    ensures !Mentions(a + b, s.env, k)
    decreases |a|
  {
    if a == [] {
      assert a + b == b;
    } else {
      StepEnv(s, a[0]);
      MentionsConcat(a[1..], b, Step(s, a[0]).value, t, k);
      assert (a + b)[1..] == a[1..] + b;
    }
  }

  lemma StepEnv(s: State, i: ShortItem)
    requires Step(s, i).Ok?
    ensures Step(s, i).value.env == EnvAfter(s.env, i)
  {
  }

  lemma {:induction false} NotMentioned(items: seq<ShortItem>, env: Env, k: Key)
    requires !Mentions(items, env, k)
    ensures DeclaredBits(items, env, k) == 0
    decreases |items|
  {
    if items == [] {
    } else {
      NotMentioned(items[1..], EnvAfter(env, items[0]), k);
    }
  }

  predicate Holds(f: Field, bit: nat) {
    f.offset <= bit < f.offset + f.size
  }

  predicate OnlyHolder(fs: seq<Field>, i: nat, bit: nat) {
    i < |fs| && Holds(fs[i], bit) && forall j | 0 <= j < |fs| && j != i :: !Holds(fs[j], bit)
  }

  /** What tiling means for single bits: fields are disjoint and in order, and every bit is in some field. */
  lemma {:induction false} TilesDisjoint(fs: seq<Field>, lo: nat, hi: nat, i: nat)
    requires Tiles(fs, lo, hi) && i < |fs|
    ensures lo <= fs[i].offset && fs[i].offset + fs[i].size <= hi
    ensures forall j | i < j < |fs| :: fs[i].offset + fs[i].size <= fs[j].offset
  {
    if i > 0 {
      TilesDisjoint(fs[1..], lo + fs[0].size, hi, i - 1);
      assert forall j | i < j < |fs| :: fs[j] == fs[1..][j - 1];
    } else {
      forall j | 0 <= j < |fs|
        ensures lo <= fs[j].offset && fs[j].offset + fs[j].size <= hi
        ensures j > 0 ==> lo + fs[0].size <= fs[j].offset
      {
        if j > 0 {
          TilesDisjoint(fs[1..], lo + fs[0].size, hi, j - 1);
        } else {
          TilesOrdered(fs[1..], lo + fs[0].size, hi);
        }
      }
    }
  }

  lemma {:induction false} TilesOrdered(fs: seq<Field>, lo: nat, hi: nat)
    requires Tiles(fs, lo, hi)
    ensures lo <= hi
  {
    if fs == [] {
    } else {
      TilesOrdered(fs[1..], lo + fs[0].size, hi);
    }
  }

  lemma {:induction false} TilesCover(fs: seq<Field>, lo: nat, hi: nat, bit: nat) returns (i: nat)
    requires Tiles(fs, lo, hi) && lo <= bit < hi
    ensures i < |fs| && Holds(fs[i], bit)
  {
    if bit >= lo + fs[0].size {
      var j := TilesCover(fs[1..], lo + fs[0].size, hi, bit);
      i := j + 1;
    } else {
      i := 0;
    }
  }

  lemma OneHolder(fs: seq<Field>, hi: nat, bit: nat) returns (i: nat)
    requires Tiles(fs, 0, hi) && bit < hi
    ensures OnlyHolder(fs, i, bit)
  {
    i := TilesCover(fs, 0, hi, bit);
    forall j | 0 <= j < |fs| && j != i
      ensures !Holds(fs[j], bit)
    {
      TilesDisjoint(fs, 0, hi, i);
      TilesDisjoint(fs, 0, hi, j);
    }
  }

  /** Every bit of every report belongs to exactly one field. */
  lemma {:induction false} EveryBitInOneField(items: seq<ShortItem>, k: Key, bit: nat)
    requires Run(items, INITIAL).Ok?
    requires bit < DeclaredBits(items, INITIAL_ENV, k)
    ensures exists i :: OnlyHolder(FieldsOf(Run(items, INITIAL).value.fields, k), i, bit)
  {
    LayoutTheorem(items, k);
    var i := OneHolder(FieldsOf(Run(items, INITIAL).value.fields, k), DeclaredBits(items, INITIAL_ENV, k), bit);
  }
}
