/** Validation of a typed cloud plan (`validate_cloud_plan` in
    cloud_offload/plan_protocol.py).

    The code makes one pass over the stages, filling the table of validated outputs as
    it goes, so an input may name the output of a stage that comes later in the list and
    is not validated yet.  `WellFormed` says what an accepted plan is without any such
    order.  */
module PlanValidation {
  import opened Prelude
  import opened PlanGraph

  const MAX_STAGES: nat := 64
  const MAX_INPUTS: nat := 256
  const MAX_OUTPUTS: nat := 256

  /** An element of a JSON list of contracts.  `bare` when its keys are exactly name, role
      and media_type; `sound` when it passes the remaining checks of `_contract`. */
  datatype Item =
    | NotAnObject
    | Object(name: Option<string>, role: Option<string>, media: Option<string>, bare: bool, sound: bool)

  predicate IsContract(item: Item) {
    item.Object? && item.name.Some? && item.role.Some? && item.media.Some? && item.sound
  }

  /** The raw `outputs` of a stage: a list, something Python can loop over that holds no
      object (a missing key, a string or an object), or something it cannot loop over. */
  datatype Outputs = Items(items: seq<Item>) | Objectless | NotIterable

  /** `sound` when the remaining field checks of a binding pass. */
  datatype Binding = Binding(
    fromStage: Option<string>, artifact: Option<string>, output: Option<string>,
    role: Option<string>, media: Option<string>, sound: bool)

  /** `sound` when the field checks that do not concern the graph pass. */
  datatype Stage = Stage(id: string, dependsOn: seq<string>, outputs: Outputs, inputs: seq<Binding>, sound: bool)

  datatype FinalOutput = FinalOutput(stage: string, output: string)

  /** `sound` when the schema, identifier and operation checks at the beginning pass, `closed`
      when the policy and digest checks at the end do. */
  datatype Plan = Plan(inputs: seq<Item>, stages: seq<Stage>, finals: seq<FinalOutput>, sound: bool, closed: bool)

  datatype Verdict = Accepted | PlanError | TypeError

  /******* What an accepted plan is *******/

  ghost predicate DistinctNames(items: seq<Item>) {
    forall i, j | 0 <= i < j < |items| && items[i].Object? && items[j].Object? :: items[i].name != items[j].name
  }

  ghost predicate ValidContracts(items: seq<Item>) {
    (forall item <- items :: IsContract(item)) && DistinctNames(items)
  }

  ghost predicate ValidOutputs(o: Outputs) {
    o.Items? && |o.items| <= MAX_OUTPUTS && ValidContracts(o.items)
  }

  /** `item` meets the role and media type stated on the binding, if any. */
  predicate Matches(b: Binding, item: Item)
    requires item.Object?
  {
    (b.role.None? || b.role == item.role) && (b.media.None? || b.media == item.media)
  }

  ghost predicate Provides(items: seq<Item>, name: string, b: Binding) {
    exists item :: item in items && item.Object? && item.name == Some(name) && Matches(b, item)
  }

  ghost predicate BindingHolds(plan: Plan, s: Stage, b: Binding) {
    && b.sound && (b.fromStage.None? <==> b.artifact.Some?)
    && if b.fromStage.Some? then
         && b.fromStage.value in s.dependsOn && b.output.Some?
         && exists p <- plan.stages :: p.id == b.fromStage.value && p.outputs.Items? && Provides(p.outputs.items, b.output.value, b)
       else
         Provides(plan.inputs, b.artifact.value, b)
  }

  ghost predicate StageHolds(plan: Plan, s: Stage) {
    && s.sound && ValidOutputs(s.outputs) && |s.inputs| <= MAX_INPUTS
    && (forall i, j | 0 <= i < j < |s.dependsOn| :: s.dependsOn[i] != s.dependsOn[j])
    && (forall d <- s.dependsOn :: d != s.id && exists p <- plan.stages :: p.id == d)
    && (forall b <- s.inputs :: BindingHolds(plan, s, b))
  }

  ghost predicate DistinctIds(stages: seq<Stage>) {
    forall i, j | 0 <= i < j < |stages| :: stages[i].id != stages[j].id
  }

  /** The dependency graph of stages with distinct identifiers. */
  function Dependencies(stages: seq<Stage>): Graph {
    if stages == [] then map[]
    else Dependencies(stages[..|stages| - 1])[stages[|stages| - 1].id := stages[|stages| - 1].dependsOn]
  }

  ghost predicate FinalHolds(plan: Plan, f: FinalOutput) {
    exists p <- plan.stages ::
      p.id == f.stage && p.outputs.Items? && exists item <- p.outputs.items :: item.Object? && item.name == Some(f.output)
  }

  ghost predicate WellFormed(plan: Plan) {
    && plan.sound && plan.closed
    && 1 <= |plan.inputs| <= MAX_INPUTS && ValidContracts(plan.inputs)
    && 1 <= |plan.stages| <= MAX_STAGES && DistinctIds(plan.stages)
    && (forall s <- plan.stages :: StageHolds(plan, s))
    && !Cyclic(Dependencies(plan.stages))
    && plan.finals != [] && (forall f <- plan.finals :: FinalHolds(plan, f))
  }

  /******* The validator *******/

  type Contracts = map<string, Item>

  /** `table` is the validated form of `items`. */
  ghost predicate Tabulates(table: Contracts, items: seq<Item>) {
    && ValidContracts(items)
    && (forall name :: name in table <==> exists item <- items :: item.name == Some(name))
    && (forall name <- table :: table[name] in items && table[name].name == Some(name))
  }

  /** The table of some contracts, by name. */
  function Table(items: seq<Item>): Contracts {
    if items == [] then map[]
    else
      var front, last := Table(items[..|items| - 1]), items[|items| - 1];
      if last.Object? && last.name.Some? then front[last.name.value := last] else front
  }

  /** One more contract under a new name. */
  lemma TabulatesNext(items: seq<Item>, i: nat, table: Contracts)
    requires i < |items| && Tabulates(table, items[..i])
    requires IsContract(items[i]) && items[i].name.value !in table
    ensures Tabulates(table[items[i].name.value := items[i]], items[..i + 1])
  {
    var item := items[i];
    assert items[..i + 1] == items[..i] + [item];
    assert forall other <- items[..i] :: other.name.value in table;
  }

  lemma NameIsTaken(items: seq<Item>, i: nat, table: Contracts)
    requires i < |items| && Tabulates(table, items[..i]) && IsContract(items[i]) && items[i].name.value in table
    ensures !DistinctNames(items)
  {
    var other := table[items[i].name.value];
    var k :| 0 <= k < i && items[..i][k] == other;
    assert items[k].Object? && items[k].name == items[i].name;
  }

  /** The loops over `input_artifacts` and over a stage's `outputs`. */
  method ValidateContracts(items: seq<Item>) returns (ok: bool, table: Contracts)
    ensures ok <==> ValidContracts(items)
    ensures ok ==> Tabulates(table, items) && table == Table(items)
  {
    table := map[];
    assert Tabulates(table, items[..0]);
    hide Tabulates, DistinctNames;
    for i := 0 to |items|
      invariant Tabulates(table, items[..i]) && table == Table(items[..i])
    {
      var item := items[i];
      assert items[..i + 1][..i] == items[..i];
      assert item in items;
      if !IsContract(item) {
        return false, table;
      }
      if item.name.value in table {
        NameIsTaken(items, i, table);
        return false, table;
      }
      TabulatesNext(items, i, table);
      table := table[item.name.value := item];
    }
    assert items[..|items|] == items;
    TabulatesValid(table, items);
    ok := true;
  }

  lemma TabulatesValid(table: Contracts, items: seq<Item>)
    requires Tabulates(table, items)
    ensures ValidContracts(items)
  {
  }

  function StageIndex(stages: seq<Stage>, id: string): (i: nat)
    requires exists p <- stages :: p.id == id
    ensures i < |stages| && stages[i].id == id
  {
    if stages[0].id == id then 0 else 1 + StageIndex(stages[1..], id)
  }

  /** The dict comprehension over a raw list: of several objects with a name the last wins. */
  function LastNamed(items: seq<Item>, name: string): (r: Option<Item>)
    ensures r.Some? ==> r.value.Object?
  {
    if items == [] then None
    else
      var last := items[|items| - 1];
      if last.Object? && last.name == Some(name) then Some(last) else LastNamed(items[..|items| - 1], name)
  }

  datatype Lookup = Declared(item: Item) | Missing | Malformed | Raised

  /** Where a binding finds its producer's output: among the validated outputs, or else in
      the producer's raw list. */
  function FindOutput(stages: seq<Stage>, outputs: map<string, Contracts>, source: string, name: string): Lookup
    requires exists p <- stages :: p.id == source
  {
    if source in outputs && name in outputs[source] then
      Declared(outputs[source][name])
    else
      match stages[StageIndex(stages, source)].outputs
      case NotIterable => Raised
      case Objectless => Missing
      case Items(items) =>
        match LastNamed(items, name)
        case None => Missing
        case Some(item) => if item.bare || IsContract(item) then Declared(item) else Malformed
  }

  predicate HasStage(stages: seq<Stage>, id: string) {
    exists p <- stages :: p.id == id
  }

  /** The checks of one input binding. */
  function CheckBinding(plan: Plan, declared: Contracts, outputs: map<string, Contracts>, s: Stage,
                        b: Binding): Verdict {
    if !b.sound || (b.fromStage.None? == b.artifact.None?) then
      PlanError
    else if b.fromStage.Some? then
      var source := b.fromStage.value;
      if !HasStage(plan.stages, source) || source == s.id || source !in s.dependsOn || b.output.None? then
        PlanError
      else
        match FindOutput(plan.stages, outputs, source, b.output.value)
        case Raised => TypeError
        case Missing => PlanError
        case Malformed => PlanError
        case Declared(item) => if item.Object? && Matches(b, item) then Accepted else PlanError
    else if b.artifact.value !in declared then
      PlanError
    else
      var item := declared[b.artifact.value];
      if item.Object? && Matches(b, item) then Accepted else PlanError
  }

  /** The validated outputs of some of the stages. */
  ghost predicate TabulatesSome(outputs: map<string, Contracts>, stages: seq<Stage>) {
    forall id <- outputs ::
      exists k :: 0 <= k < |stages| && stages[k].id == id && stages[k].outputs.Items?
                  && Tabulates(outputs[id], stages[k].outputs.items)
  }

  lemma {:induction false} LastNamedIs(items: seq<Item>, name: string)
    ensures match LastNamed(items, name)
            case None => forall item <- items :: !(item.Object? && item.name == Some(name))
            case Some(item) => item in items && item.Object? && item.name == Some(name)
  {
    if items != [] {
      var n := |items| - 1;
      assert items == items[..n] + [items[n]];
      LastNamedIs(items[..n], name);
    }
  }

  lemma SameId(stages: seq<Stage>, i: nat, j: nat)
    requires DistinctIds(stages) && i < |stages| && j < |stages| && stages[i].id == stages[j].id
    ensures i == j
  {
  }

  /** A declared output found for a binding is an output of the producer, and it is the only
      one of its name once the producer's outputs are valid. */
  lemma FoundIsDeclared(stages: seq<Stage>, outputs: map<string, Contracts>, p: Stage, name: string)
    requires p in stages && DistinctIds(stages) && TabulatesSome(outputs, stages)
    ensures match FindOutput(stages, outputs, p.id, name)
            case Declared(item) => p.outputs.Items? && item in p.outputs.items && item.Object? && item.name == Some(name)
            case Missing => p.outputs.Items? ==> forall item <- p.outputs.items :: !(item.Object? && item.name == Some(name))
            case Malformed => p.outputs.Items? && exists item <- p.outputs.items :: !IsContract(item)
            case Raised => p.outputs.NotIterable?
  {
    var j := StageIndex(stages, p.id);
    var i :| 0 <= i < |stages| && stages[i] == p;
    SameId(stages, i, j);
    if p.id in outputs && name in outputs[p.id] {
      var k :| 0 <= k < |stages| && stages[k].id == p.id && stages[k].outputs.Items?
               && Tabulates(outputs[p.id], stages[k].outputs.items);
      SameId(stages, i, k);
    } else if p.outputs.Items? {
      LastNamedIs(p.outputs.items, name);
    }
  }

  /** In a list of valid contracts a name has one object. */
  lemma OnlyOne(items: seq<Item>, a: Item, b: Item)
    requires ValidContracts(items) && a in items && b in items && a.name == b.name
    ensures a == b
  {
    var i :| 0 <= i < |items| && items[i] == a;
    var j :| 0 <= j < |items| && items[j] == b;
  }

  /** Refusing a binding is always right: a plan with such a binding is not well formed. */
  lemma RefusalIsRight(plan: Plan, declared: Contracts, outputs: map<string, Contracts>, s: Stage, b: Binding)
    requires WellFormed(plan) && s in plan.stages && b in s.inputs
    requires Tabulates(declared, plan.inputs) && TabulatesSome(outputs, plan.stages)
    ensures CheckBinding(plan, declared, outputs, s, b) == Accepted
  {
    assert StageHolds(plan, s) && BindingHolds(plan, s, b);
    if b.fromStage.Some? {
      var p :| p in plan.stages && p.id == b.fromStage.value && p.outputs.Items? && Provides(p.outputs.items, b.output.value, b);
      assert StageHolds(plan, p);
      FoundIsDeclared(plan.stages, outputs, p, b.output.value);
      var item :| item in p.outputs.items && item.Object? && item.name == b.output && Matches(b, item);
      var found := FindOutput(plan.stages, outputs, p.id, b.output.value);
      if found.Declared? {
        OnlyOne(p.outputs.items, item, found.item);
      }
    } else {
      var item :| item in plan.inputs && item.Object? && item.name == b.artifact && Matches(b, item);
      OnlyOne(plan.inputs, item, declared[b.artifact.value]);
    }
  }

  /** What an accepted binding has shown, before the producer's own outputs are known to be
      valid. */
  lemma AcceptanceShows(plan: Plan, declared: Contracts, outputs: map<string, Contracts>, s: Stage, b: Binding)
    requires DistinctIds(plan.stages) && Tabulates(declared, plan.inputs) && TabulatesSome(outputs, plan.stages)
    requires CheckBinding(plan, declared, outputs, s, b) == Accepted
    ensures BindingHolds(plan, s, b)
  {
    if b.fromStage.Some? {
      var p :| p in plan.stages && p.id == b.fromStage.value;
      FoundIsDeclared(plan.stages, outputs, p, b.output.value);
      assert Provides(p.outputs.items, b.output.value, b);
    } else {
      assert Provides(plan.inputs, b.artifact.value, b);
    }
  }

  predicate DistinctStrings(s: seq<string>) {
    forall i, j | 0 <= i < j < |s| :: s[i] != s[j]
  }

  /******* Verdicts in the order of the checks *******/

  /** The verdict on the first `n` bindings of a stage: that of the first that is refused. */
  function JudgeBindings(plan: Plan, declared: Contracts, outputs: map<string, Contracts>, s: Stage, n: nat): Verdict
    requires n <= |s.inputs|
  {
    if n == 0 then Accepted
    else
      var v := JudgeBindings(plan, declared, outputs, s, n - 1);
      if v != Accepted then v else CheckBinding(plan, declared, outputs, s, s.inputs[n - 1])
  }

  /** The tables of validated outputs of some stages. */
  function Tables(stages: seq<Stage>): map<string, Contracts> {
    if stages == [] then map[]
    else
      var last := stages[|stages| - 1];
      Tables(stages[..|stages| - 1])[last.id := if last.outputs.Items? then Table(last.outputs.items) else map[]]
  }

  /** The checks of a stage that come before its bindings. */
  ghost predicate StageOpens(plan: Plan, s: Stage) {
    && s.sound && DistinctStrings(s.dependsOn) && (forall d <- s.dependsOn :: d != s.id && HasStage(plan.stages, d))
    && ValidOutputs(s.outputs) && |s.inputs| <= MAX_INPUTS
  }

  /** The verdict on the first `n` stages. */
  ghost function JudgeStages(plan: Plan, n: nat): Verdict
    requires n <= |plan.stages|
  {
    if n == 0 then Accepted
    else
      var v, s := JudgeStages(plan, n - 1), plan.stages[n - 1];
      if v != Accepted then v
      else if !StageOpens(plan, s) then PlanError
      else JudgeBindings(plan, Table(plan.inputs), Tables(plan.stages[..n]), s, |s.inputs|)
  }

  /** The checks that come before the stages. */
  ghost predicate PlanOpens(plan: Plan) {
    && plan.sound && 1 <= |plan.inputs| <= MAX_INPUTS && ValidContracts(plan.inputs)
    && 1 <= |plan.stages| <= MAX_STAGES && DistinctIds(plan.stages)
  }

  /** Every check before binding `j` of stage `i` passes. */
  ghost predicate Reaches(plan: Plan, i: nat, j: nat)
    requires i < |plan.stages| && j < |plan.stages[i].inputs|
  {
    && PlanOpens(plan) && JudgeStages(plan, i) == Accepted && StageOpens(plan, plan.stages[i])
    && JudgeBindings(plan, Table(plan.inputs), Tables(plan.stages[..i + 1]), plan.stages[i], j) == Accepted
  }

  /** The binding reads an output of a declared dependency whose `outputs` cannot be looped
      over. */
  ghost predicate ReadsNull(plan: Plan, s: Stage, b: Binding) {
    && b.sound && b.artifact.None? && b.fromStage.Some? && b.output.Some? && b.fromStage.value != s.id
    && b.fromStage.value in s.dependsOn
    && exists p <- plan.stages :: p.id == b.fromStage.value && p.outputs.NotIterable?
  }

  /** One turn of the loop over the stages. */
  method ValidateStage(plan: Plan, declared: Contracts, outputs: map<string, Contracts>, s: Stage)
    returns (v: Verdict, outputs': map<string, Contracts>)
    requires s in plan.stages && DistinctIds(plan.stages)
    requires Tabulates(declared, plan.inputs) && TabulatesSome(outputs, plan.stages)
    ensures v == Accepted ==> StageHolds(plan, s) && TabulatesSome(outputs', plan.stages)
    ensures v == Accepted ==> outputs'.Keys == outputs.Keys + {s.id}
    ensures WellFormed(plan) ==> v == Accepted
    ensures v == Accepted ==> outputs' == outputs[s.id := Table(s.outputs.items)]
    ensures v == if !StageOpens(plan, s) then PlanError
                 else JudgeBindings(plan, declared, outputs[s.id := Table(s.outputs.items)], s, |s.inputs|)
  {
    outputs' := outputs;
    if !s.sound || !DistinctStrings(s.dependsOn)
      || (exists d <- s.dependsOn :: d == s.id || !HasStage(plan.stages, d))
    {
      assert !StageHolds(plan, s);
      return PlanError, outputs';
    }
    if !s.outputs.Items? || |s.outputs.items| > MAX_OUTPUTS {
      assert !StageHolds(plan, s);
      return PlanError, outputs';
    }
    var ok, table := ValidateContracts(s.outputs.items);
    if !ok || |s.inputs| > MAX_INPUTS {
      assert !StageHolds(plan, s);
      return PlanError, outputs';
    }
    outputs' := outputs[s.id := table];
    TabulatesOneMore(outputs, plan.stages, s, table);
    v := CheckBindings(plan, declared, outputs', s);
  }

  lemma TabulatesOneMore(outputs: map<string, Contracts>, stages: seq<Stage>, s: Stage, table: Contracts)
    requires TabulatesSome(outputs, stages) && s in stages && s.outputs.Items? && Tabulates(table, s.outputs.items)
    ensures TabulatesSome(outputs[s.id := table], stages)
  {
    var i :| 0 <= i < |stages| && stages[i] == s;
  }

  lemma {:induction false} RefusedForGood(plan: Plan, declared: Contracts, outputs: map<string, Contracts>, s: Stage,
                        n: nat)
    requires n <= |s.inputs| && JudgeBindings(plan, declared, outputs, s, n) != Accepted
    ensures JudgeBindings(plan, declared, outputs, s, |s.inputs|) == JudgeBindings(plan, declared, outputs, s, n)
    decreases |s.inputs| - n
  {
    hide CheckBinding;
    if n < |s.inputs| {
      RefusedForGood(plan, declared, outputs, s, n + 1);
    }
  }

  lemma {:induction false} StageRefusedForGood(plan: Plan, n: nat)
    requires n <= |plan.stages| && JudgeStages(plan, n) != Accepted
    ensures JudgeStages(plan, |plan.stages|) == JudgeStages(plan, n)
    decreases |plan.stages| - n
  {
    hide StageOpens, JudgeBindings;
    if n < |plan.stages| {
      StageRefusedForGood(plan, n + 1);
    }
  }

  method CheckBindings(plan: Plan, declared: Contracts, outputs: map<string, Contracts>, s: Stage) returns (v: Verdict)
    requires s in plan.stages && DistinctIds(plan.stages)
    requires Tabulates(declared, plan.inputs) && TabulatesSome(outputs, plan.stages)
    ensures v == Accepted ==> forall b <- s.inputs :: BindingHolds(plan, s, b)
    ensures WellFormed(plan) ==> v == Accepted
    ensures v == JudgeBindings(plan, declared, outputs, s, |s.inputs|)
  {
    hide WellFormed, CheckBinding, BindingHolds, Tabulates, TabulatesSome;
    for k := 0 to |s.inputs|
      invariant JudgeBindings(plan, declared, outputs, s, k) == Accepted
      invariant forall b <- s.inputs[..k] :: BindingHolds(plan, s, b)
    {
      var b := s.inputs[k];
      assert s.inputs[..k + 1] == s.inputs[..k] + [b];
      v := CheckBinding(plan, declared, outputs, s, b);
      if v != Accepted {
        if WellFormed(plan) {
          RefusalIsRight(plan, declared, outputs, s, b);
        }
        RefusedForGood(plan, declared, outputs, s, k + 1);
        return;
      }
      AcceptanceShows(plan, declared, outputs, s, b);
    }
    assert s.inputs[..|s.inputs|] == s.inputs;
    v := Accepted;
  }

  method CheckIds(stages: seq<Stage>) returns (ok: bool)
    ensures ok <==> DistinctIds(stages)
  {
    var ids: set<string> := {};
    for i := 0 to |stages|
      invariant ids == set k | 0 <= k < i :: stages[k].id
      invariant DistinctIds(stages[..i])
    {
      if stages[i].id in ids {
        return false;
      }
      ids := ids + {stages[i].id};
    }
    assert stages[..|stages|] == stages;
    ok := true;
  }

  lemma {:induction false} DependenciesAre(stages: seq<Stage>)
    requires DistinctIds(stages)
    ensures Dependencies(stages).Keys == set s <- stages :: s.id
    ensures forall s <- stages :: s.id in Dependencies(stages) && Dependencies(stages)[s.id] == s.dependsOn
  {
    if stages != [] {
      var front, last := stages[..|stages| - 1], stages[|stages| - 1];
      DependenciesAre(front);
      forall s | s in stages ensures s == last || (s in front && s.id != last.id) {
        var i :| 0 <= i < |stages| && stages[i] == s;
        assert i < |front| ==> front[i] == s && stages[i].id != stages[|stages| - 1].id;
      }
      assert forall s <- front :: s in stages;
      assert last in stages;
    }
  }

  lemma DependenciesAreClosed(plan: Plan)
    requires DistinctIds(plan.stages) && forall s <- plan.stages :: StageHolds(plan, s)
    ensures Closed(Dependencies(plan.stages))
  {
    var g := Dependencies(plan.stages);
    DependenciesAre(plan.stages);
    forall id, d | id in g && d in g[id] ensures d in g {
      var s :| s in plan.stages && s.id == id;
      assert StageHolds(plan, s);
    }
  }

  /** The loop over the stages. */
  method ValidateStages(plan: Plan, declared: Contracts)
    returns (v: Verdict, graph: Graph, outputs: map<string, Contracts>)
    requires DistinctIds(plan.stages) && Tabulates(declared, plan.inputs) && declared == Table(plan.inputs)
    ensures v == JudgeStages(plan, |plan.stages|)
    ensures WellFormed(plan) ==> v == Accepted
    ensures v == Accepted ==> forall s <- plan.stages :: StageHolds(plan, s)
    ensures v == Accepted ==> graph == Dependencies(plan.stages) && TabulatesSome(outputs, plan.stages)
    ensures v == Accepted ==> outputs.Keys == set k | 0 <= k < |plan.stages| :: plan.stages[k].id
  {
    hide StageHolds, StageOpens, Tabulates, TabulatesSome, JudgeBindings, JudgeStages, Table, Tables, WellFormed, DistinctIds;
    graph, outputs := map[], map[];
    NothingTabulated(plan);
    for i := 0 to |plan.stages|
      invariant forall k | 0 <= k < i :: StageHolds(plan, plan.stages[k])
      invariant graph == Dependencies(plan.stages[..i])
      invariant TabulatesSome(outputs, plan.stages) && outputs == Tables(plan.stages[..i])
      invariant JudgeStages(plan, i) == Accepted
      invariant outputs.Keys == set k | 0 <= k < i :: plan.stages[k].id
    {
      assert plan.stages[..i + 1][..i] == plan.stages[..i];
      JudgeNext(plan, i);
      v, outputs := ValidateStage(plan, declared, outputs, plan.stages[i]);
      if v != Accepted {
        StageRefusedForGood(plan, i + 1);
        return;
      }
      graph := graph[plan.stages[i].id := plan.stages[i].dependsOn];
    }
    assert plan.stages[..|plan.stages|] == plan.stages;
    v := Accepted;
  }

  /** Accepts a plan exactly when it is well formed; the order of the stages in the list does
      not matter.  Raises the wrong error exactly when a binding that is reached reads a null
      output. */
  method ValidateCloudPlan(plan: Plan) returns (v: Verdict)
    ensures v == Accepted <==> WellFormed(plan)
    ensures v == Accepted <==> IsRunnable(plan)
    ensures v == TypeError <==> Raises(plan)
  {
    WellFormedExactly(plan);
    hide IsRunnable, StageHolds, FinalHolds, Tabulates, TabulatesSome, Table, Tables, Raises, JudgeStages, DistinctIds;
    TypeErrorExactly(plan);
    if !plan.sound || !(1 <= |plan.inputs| <= MAX_INPUTS) {
      return PlanError;
    }
    var ok, declared := ValidateContracts(plan.inputs);
    if !ok || !(1 <= |plan.stages| <= MAX_STAGES) {
      return PlanError;
    }
    ok := CheckIds(plan.stages);
    if !ok {
      return PlanError;
    }
    var graph: Graph, outputs: map<string, Contracts>;
    v, graph, outputs := ValidateStages(plan, declared);
    if v != Accepted {
      return;
    }
    var ids := seq(|plan.stages|, k requires 0 <= k < |plan.stages| => plan.stages[k].id);
    DependenciesAreClosed(plan);
    IdsAreKeys(plan.stages, ids);
    hide Dependencies;
    WalkAcceptsIffAcyclic(graph, ids);
    var walk := new DepthFirst(graph);
    ok := walk.VisitEach(ids);
    if !ok || !plan.closed || plan.finals == [] {
      return PlanError;
    }
    ok := CheckFinals(plan, outputs);
    v := if ok then Accepted else PlanError;
  }

  lemma TablesNext(stages: seq<Stage>, i: nat)
    requires i < |stages|
    ensures Tables(stages[..i + 1]) ==
            Tables(stages[..i])[stages[i].id := if stages[i].outputs.Items? then Table(stages[i].outputs.items) else map[]]
  {
    assert stages[..i + 1][..i] == stages[..i];
  }

  lemma NothingTabulated(plan: Plan)
    ensures TabulatesSome(map[], plan.stages) && Tables(plan.stages[..0]) == map[] && JudgeStages(plan, 0) == Accepted
  {
  }

  lemma JudgeNext(plan: Plan, i: nat)
    requires i < |plan.stages| && JudgeStages(plan, i) == Accepted
    ensures var s := plan.stages[i];
            && (StageOpens(plan, s) ==> s.outputs.Items?)
            && var outputs := Tables(plan.stages[..i])[s.id := if s.outputs.Items? then Table(s.outputs.items) else map[]];
               && Tables(plan.stages[..i + 1]) == outputs
               && JudgeStages(plan, i + 1) ==
                  if StageOpens(plan, s) then JudgeBindings(plan, Table(plan.inputs), outputs, s, |s.inputs|) else PlanError
  {
    TablesNext(plan.stages, i);
  }

  lemma IdsAreKeys(stages: seq<Stage>, ids: seq<string>)
    requires DistinctIds(stages) && |ids| == |stages| && forall k | 0 <= k < |ids| :: ids[k] == stages[k].id
    ensures forall id :: id in Dependencies(stages) <==> id in ids
  {
    DependenciesAre(stages);
    forall id | id in ids ensures id in Dependencies(stages) {
      var k :| 0 <= k < |ids| && ids[k] == id;
      assert stages[k] in stages;
    }
    forall id | id in Dependencies(stages) ensures id in ids {
      var s :| s in stages && s.id == id;
      var k :| 0 <= k < |stages| && stages[k] == s;
      assert ids[k] == id;
    }
  }

  method CheckFinals(plan: Plan, outputs: map<string, Contracts>) returns (ok: bool)
    requires DistinctIds(plan.stages) && TabulatesSome(outputs, plan.stages)
    requires outputs.Keys == set k | 0 <= k < |plan.stages| :: plan.stages[k].id
    ensures ok <==> forall f <- plan.finals :: FinalHolds(plan, f)
  {
    for i := 0 to |plan.finals|
      invariant forall f <- plan.finals[..i] :: FinalHolds(plan, f)
    {
      var f := plan.finals[i];
      assert plan.finals[..i + 1] == plan.finals[..i] + [f];
      FinalIsTabulated(plan, outputs, f);
      if f.stage !in outputs || f.output !in outputs[f.stage] {
        return false;
      }
    }
    assert plan.finals[..|plan.finals|] == plan.finals;
    ok := true;
  }

  lemma FinalIsTabulated(plan: Plan, outputs: map<string, Contracts>, f: FinalOutput)
    requires DistinctIds(plan.stages) && TabulatesSome(outputs, plan.stages)
    requires outputs.Keys == set k | 0 <= k < |plan.stages| :: plan.stages[k].id
    ensures FinalHolds(plan, f) <==> f.stage in outputs && f.output in outputs[f.stage]
  {
    hide FinalHolds;
    if FinalHolds(plan, f) {
      HoldsIsTabulated(plan, outputs, f);
    }
    if f.stage in outputs && f.output in outputs[f.stage] {
      hide DistinctIds;
      TabulatedHolds(plan, outputs, f);
    }
  }

  lemma HoldsIsTabulated(plan: Plan, outputs: map<string, Contracts>, f: FinalOutput)
    requires DistinctIds(plan.stages) && TabulatesSome(outputs, plan.stages)
    requires outputs.Keys == set k | 0 <= k < |plan.stages| :: plan.stages[k].id
    requires FinalHolds(plan, f)
    ensures f.stage in outputs && f.output in outputs[f.stage]
  {
    var p :| p in plan.stages && p.id == f.stage && p.outputs.Items?
             && exists item <- p.outputs.items :: item.Object? && item.name == Some(f.output);
    var j :| 0 <= j < |plan.stages| && plan.stages[j] == p;
    assert f.stage in outputs;
    var k :| 0 <= k < |plan.stages| && plan.stages[k].id == f.stage && plan.stages[k].outputs.Items?
             && Tabulates(outputs[f.stage], plan.stages[k].outputs.items);
    hide TabulatesSome;
    SameId(plan.stages, j, k);
  }

  lemma TabulatedHolds(plan: Plan, outputs: map<string, Contracts>, f: FinalOutput)
    requires TabulatesSome(outputs, plan.stages)
    requires f.stage in outputs && f.output in outputs[f.stage]
    ensures FinalHolds(plan, f)
  {
    var k :| 0 <= k < |plan.stages| && plan.stages[k].id == f.stage && plan.stages[k].outputs.Items?
             && Tabulates(outputs[f.stage], plan.stages[k].outputs.items);
    hide TabulatesSome, ValidContracts;
    assert plan.stages[k] in plan.stages;
  }

  /******* What acceptance gives an executor *******/

  /** Some item of a list has the name, and the role and media type where the binding states them. */
  ghost predicate Carries(items: seq<Item>, name: Option<string>, b: Binding) {
    exists i :: 0 <= i < |items| && items[i].Object? && name.Some? && items[i].name == name
                && (b.role.Some? ==> items[i].role == b.role) && (b.media.Some? ==> items[i].media == b.media)
  }

  /** Each input of the stage at position `k` of `order` comes from a declared artifact or from
      a declared output of a dependency before it, and meets what the binding states. */
  ghost predicate Supplied(plan: Plan, order: seq<string>, k: nat, s: Stage, b: Binding)
    requires k < |order|
  {
    && b.sound
    && match (b.fromStage, b.artifact)
       case (Some(source), None) =>
         source in s.dependsOn && exists j, p :: 0 <= j < k && p in plan.stages && order[j] == source == p.id
                                               && p.outputs.Items? && Carries(p.outputs.items, b.output, b)
       case (None, Some(name)) => Carries(plan.inputs, Some(name), b)
       case _ => false
  }

  /** `order` runs every stage once, after its dependencies and with all its inputs, and then
      has every final output. */
  ghost predicate Executable(plan: Plan, order: seq<string>) {
    && Once(order) && (forall id :: id in order <==> exists s :: s in plan.stages && s.id == id)
    && (forall k, s | 0 <= k < |order| && s in plan.stages && s.id == order[k] ::
          && (forall d <- s.dependsOn :: d in order[..k])
          && (forall b <- s.inputs :: Supplied(plan, order, k, s, b)))
    && forall f <- plan.finals ::
         exists p, item :: p in plan.stages && p.id == f.stage && p.outputs.Items? && item in p.outputs.items
                           && item.Object? && item.name == Some(f.output)
  }

  ghost predicate Declares(items: seq<Item>) {
    && (forall i | 0 <= i < |items| ::
          && items[i].Object? && items[i].name.Some? && items[i].role.Some? && items[i].media.Some?
          && items[i].sound)
    && forall i, j | 0 <= i < j < |items| :: items[i].name != items[j].name
  }

  /** What is asked of a plan apart from its graph. */
  ghost predicate MeetsLimits(plan: Plan) {
    && plan.sound && plan.closed && plan.finals != []
    && 1 <= |plan.inputs| <= 256 && Declares(plan.inputs)
    && 1 <= |plan.stages| <= 64
    && (forall i, j | 0 <= i < j < |plan.stages| :: plan.stages[i].id != plan.stages[j].id)
    && forall s <- plan.stages ::
         && s.sound && |s.inputs| <= 256
         && s.outputs.Items? && |s.outputs.items| <= 256 && Declares(s.outputs.items)
         && forall i, j | 0 <= i < j < |s.dependsOn| :: s.dependsOn[i] != s.dependsOn[j]
  }

  lemma WellFormedMeetsLimits(plan: Plan)
    requires WellFormed(plan)
    ensures MeetsLimits(plan)
  {
    hide BindingHolds, FinalHolds, Cyclic, Dependencies;
    ValidIsDeclared(plan.inputs);
    forall s <- plan.stages ensures StageHolds(plan, s) && Declares(s.outputs.items) {
      assert StageHolds(plan, s);
      ValidIsDeclared(s.outputs.items);
    }
  }

  lemma ValidIsDeclared(items: seq<Item>)
    requires ValidContracts(items)
    ensures Declares(items)
  {
    assert forall i | 0 <= i < |items| :: items[i] in items;
  }

  /** The order in which the walk finishes the stages. */
  lemma WalkedOrder(plan: Plan) returns (order: seq<string>)
    requires WellFormed(plan)
    ensures Once(order) && forall id :: id in order <==> exists s :: s in plan.stages && s.id == id
    ensures forall k, s | 0 <= k < |order| && s in plan.stages && s.id == order[k] ::
              forall d <- s.dependsOn :: d in order[..k]
  {
    var g := Dependencies(plan.stages);
    DependenciesAreClosed(plan);
    DependenciesAre(plan.stages);
    var ids := seq(|plan.stages|, k requires 0 <= k < |plan.stages| => plan.stages[k].id);
    IdsAreKeys(plan.stages, ids);
    WalkAcceptsIffAcyclic(g, ids);
    order := VisitAll(g, ids, [], []).order;
  }

  /** A well-formed plan, and so an accepted one, can be executed in some order... */
  lemma WellFormedIsExecutable(plan: Plan) returns (order: seq<string>)
    requires WellFormed(plan)
    ensures MeetsLimits(plan) && Executable(plan, order)
  {
    WellFormedMeetsLimits(plan);
    order := WalkedOrder(plan);
    assert forall f <- plan.finals :: FinalHolds(plan, f);
    hide Cyclic, Dependencies, MeetsLimits;
    forall k, s, b | 0 <= k < |order| && s in plan.stages && s.id == order[k] && b in s.inputs
      ensures Supplied(plan, order, k, s, b)
    {
      assert StageHolds(plan, s) && BindingHolds(plan, s, b);
      hide BindingHolds, WellFormed, Supplied;
      HoldingIsSupplied(plan, order, k, s, b);
    }
  }

  lemma HoldingIsSupplied(plan: Plan, order: seq<string>, k: nat, s: Stage, b: Binding)
    requires k < |order| && BindingHolds(plan, s, b) && forall d <- s.dependsOn :: d in order[..k]
    ensures Supplied(plan, order, k, s, b)
  {
    if b.fromStage.Some? {
      var p :| p in plan.stages && p.id == b.fromStage.value && p.outputs.Items? && Provides(p.outputs.items, b.output.value, b);
      var j :| 0 <= j < k && order[..k][j] == p.id;
      assert Carries(p.outputs.items, b.output, b);
      assert order[j] == p.id;
    } else {
      assert Carries(plan.inputs, b.artifact, b);
    }
  }

  lemma SuppliedHolds(plan: Plan, order: seq<string>, k: nat, s: Stage, b: Binding)
    requires k < |order| && Supplied(plan, order, k, s, b)
    ensures BindingHolds(plan, s, b)
  {
    if b.fromStage.Some? {
      var j, p :| 0 <= j < k && p in plan.stages && order[j] == b.fromStage.value == p.id
                  && p.outputs.Items? && Carries(p.outputs.items, b.output, b);
      assert Provides(p.outputs.items, b.output.value, b);
    } else {
      assert Provides(plan.inputs, b.artifact.value, b);
    }
  }

  /** ... and a plan that meets the limits and can be executed in some order is well formed. */
  lemma ExecutableIsWellFormed(plan: Plan, order: seq<string>)
    requires MeetsLimits(plan) && Executable(plan, order)
    ensures WellFormed(plan)
  {
    assert DistinctIds(plan.stages) && ValidContracts(plan.inputs);
    var g := Dependencies(plan.stages);
    DependenciesAre(plan.stages);
    hide Dependencies, Cyclic;
    forall s <- plan.stages ensures StageHolds(plan, s) {
      StageIsRun(plan, order, s);
    }
    assert forall f <- plan.finals :: FinalHolds(plan, f);
    forall k | 0 <= k < |order| ensures order[k] in g && forall d <- g[order[k]] :: d in order[..k] {
      assert order[k] in order;
      var s :| s in plan.stages && s.id == order[k];
    }
    OrderedIsAcyclic(g, order);
  }

  lemma StageIsRun(plan: Plan, order: seq<string>, s: Stage)
    requires MeetsLimits(plan) && Executable(plan, order) && s in plan.stages
    ensures StageHolds(plan, s)
  {
    assert s.id in order;
    var k :| 0 <= k < |order| && order[k] == s.id;
    forall d <- s.dependsOn ensures d != s.id && exists p <- plan.stages :: p.id == d {
      var j :| 0 <= j < k && order[..k][j] == d;
      assert order[j] == d && d in order;
    }
    forall b <- s.inputs ensures BindingHolds(plan, s, b) {
      SuppliedHolds(plan, order, k, s, b);
    }
  }

  /** A plan that meets the limits and whose stages can be run in some order. */
  ghost predicate IsRunnable(plan: Plan) {
    MeetsLimits(plan) && exists order :: Executable(plan, order)
  }

  /** So the conditions the validator checks are exactly those under which there is an order to
      execute the plan in. */
  lemma WellFormedExactly(plan: Plan)
    ensures WellFormed(plan) <==> IsRunnable(plan)
  {
    if WellFormed(plan) {
      var order := WellFormedIsExecutable(plan);
    }
    if IsRunnable(plan) {
      var order :| Executable(plan, order);
      ExecutableIsWellFormed(plan, order);
    }
  }

  /** The check of a binding ends in a `TypeError`, not in the validator's own error, exactly
      when it names a declared dependency whose `outputs` cannot be looped over and that was
      not reached yet. */
  lemma RaisesExactlyOnNullOutputs(
    plan: Plan, declared: Contracts, outputs: map<string, Contracts>, s: Stage, b: Binding, p: Stage)
    requires DistinctIds(plan.stages) && TabulatesSome(outputs, plan.stages)
    requires p in plan.stages && b.fromStage == Some(p.id)
    ensures CheckBinding(plan, declared, outputs, s, b) == TypeError <==>
              && b.sound && b.artifact.None? && b.output.Some?
              && p.id != s.id && p.id in s.dependsOn && p.outputs.NotIterable?
  {
    if b.output.Some? {
      FoundIsDeclared(plan.stages, outputs, p, b.output.value);
    }
  }

  lemma {:induction false} TableTabulates(items: seq<Item>)
    requires ValidContracts(items)
    ensures Tabulates(Table(items), items)
  {
    if items != [] {
      var n := |items| - 1;
      assert items == items[..n] + [items[n]];
      TableTabulates(items[..n]);
    }
  }

  /** After `n` accepted stages the table holds only validated outputs. */
  lemma {:induction false} TablesTabulate(plan: Plan, n: nat)
    requires n <= |plan.stages| && DistinctIds(plan.stages)
    requires forall k | 0 <= k < n :: ValidOutputs(plan.stages[k].outputs)
    ensures TabulatesSome(Tables(plan.stages[..n]), plan.stages)
  {
    if n != 0 {
      var s := plan.stages[n - 1];
      TablesTabulate(plan, n - 1);
      TablesNext(plan.stages, n - 1);
      TableTabulates(s.outputs.items);
      TabulatesOneMore(Tables(plan.stages[..n - 1]), plan.stages, s, Table(s.outputs.items));
    }
  }

  lemma {:induction false} AcceptedSoFar(plan: Plan, n: nat)
    requires n <= |plan.stages| && JudgeStages(plan, n) == Accepted
    ensures forall k | 0 <= k < n :: StageOpens(plan, plan.stages[k])
  {
    hide StageOpens, JudgeBindings;
    if n != 0 {
      AcceptedSoFar(plan, n - 1);
    }
  }

  lemma RaisesOnNull(plan: Plan, declared: Contracts, outputs: map<string, Contracts>, s: Stage, b: Binding)
    requires DistinctIds(plan.stages) && TabulatesSome(outputs, plan.stages)
    ensures ReadsNull(plan, s, b) <==> CheckBinding(plan, declared, outputs, s, b) == TypeError
  {
    if b.fromStage.Some? && HasStage(plan.stages, b.fromStage.value) {
      hide CheckBinding, TabulatesSome;
      var p :| p in plan.stages && p.id == b.fromStage.value;
      RaisesExactlyOnNullOutputs(plan, declared, outputs, s, b, p);
      if ReadsNull(plan, s, b) {
        var q :| q in plan.stages && q.id == b.fromStage.value && q.outputs.NotIterable?;
        RaisesExactlyOnNullOutputs(plan, declared, outputs, s, b, q);
      }
    }
  }

  /** A binding that is reached raises exactly when it reads a null output. */
  lemma ReachedRaisesOnNull(plan: Plan, i: nat, j: nat)
    requires i < |plan.stages| && j < |plan.stages[i].inputs| && Reaches(plan, i, j)
    ensures var s := plan.stages[i];
            ReadsNull(plan, s, s.inputs[j]) <==>
              CheckBinding(plan, Table(plan.inputs), Tables(plan.stages[..i + 1]), s, s.inputs[j]) == TypeError
  {
    hide ReadsNull, CheckBinding, JudgeStages, JudgeBindings, TabulatesSome, Tables, Table;
    AcceptedSoFar(plan, i);
    TablesTabulate(plan, i + 1);
    RaisesOnNull(plan, Table(plan.inputs), Tables(plan.stages[..i + 1]), plan.stages[i], plan.stages[i].inputs[j]);
  }

  /** The stage and then the binding that a `TypeError` comes from. */
  lemma {:induction false} StageThatRaises(plan: Plan, n: nat) returns (i: nat)
    requires n <= |plan.stages| && JudgeStages(plan, n) == TypeError
    ensures i < n && JudgeStages(plan, i) == Accepted && StageOpens(plan, plan.stages[i])
    ensures var s := plan.stages[i];
            JudgeBindings(plan, Table(plan.inputs), Tables(plan.stages[..i + 1]), s, |s.inputs|) == TypeError
  {
    hide StageOpens, JudgeBindings;
    i := n - 1;
    if JudgeStages(plan, n - 1) != Accepted {
      i := StageThatRaises(plan, n - 1);
    }
  }

  lemma {:induction false} BindingThatRaises(plan: Plan, declared: Contracts, outputs: map<string, Contracts>, s: Stage,
                        n: nat)
    returns (j: nat)
    requires n <= |s.inputs| && JudgeBindings(plan, declared, outputs, s, n) == TypeError
    ensures j < n && JudgeBindings(plan, declared, outputs, s, j) == Accepted
    ensures CheckBinding(plan, declared, outputs, s, s.inputs[j]) == TypeError
  {
    hide CheckBinding;
    j := n - 1;
    if JudgeBindings(plan, declared, outputs, s, n - 1) != Accepted {
      j := BindingThatRaises(plan, declared, outputs, s, n - 1);
    }
  }

  /** Some binding is reached, every earlier check having passed, and reads a null output. */
  ghost predicate Raises(plan: Plan) {
    exists i, j ::
      && 0 <= i < |plan.stages| && 0 <= j < |plan.stages[i].inputs|
      && Reaches(plan, i, j) && ReadsNull(plan, plan.stages[i], plan.stages[i].inputs[j])
  }

  lemma TypeErrorRaises(plan: Plan)
    requires PlanOpens(plan) && JudgeStages(plan, |plan.stages|) == TypeError
    ensures Raises(plan)
  {
    hide CheckBinding, ReadsNull, StageOpens, Tables, Table, PlanOpens;
    var i := StageThatRaises(plan, |plan.stages|);
    hide JudgeStages;
    var s := plan.stages[i];
    var j := BindingThatRaises(plan, Table(plan.inputs), Tables(plan.stages[..i + 1]), s, |s.inputs|);
    hide JudgeBindings;
    assert Reaches(plan, i, j);
    ReachedRaisesOnNull(plan, i, j);
  }

  lemma RaisesTypeError(plan: Plan, i: nat, j: nat)
    requires i < |plan.stages| && j < |plan.stages[i].inputs|
    requires Reaches(plan, i, j) && ReadsNull(plan, plan.stages[i], plan.stages[i].inputs[j])
    ensures PlanOpens(plan) && JudgeStages(plan, |plan.stages|) == TypeError
  {
    hide CheckBinding, ReadsNull, StageOpens, Tables, Table, PlanOpens;
    ReachedRaisesOnNull(plan, i, j);
    RefusedForGood(plan, Table(plan.inputs), Tables(plan.stages[..i + 1]), plan.stages[i], j + 1);
    hide JudgeBindings;
    StageRefusedForGood(plan, i + 1);
  }

  /** The checks taken in order end in a `TypeError` exactly on such plans. */
  lemma TypeErrorExactly(plan: Plan)
    ensures PlanOpens(plan) && JudgeStages(plan, |plan.stages|) == TypeError <==> Raises(plan)
  {
    hide JudgeStages, PlanOpens, Reaches, ReadsNull;
    if PlanOpens(plan) && JudgeStages(plan, |plan.stages|) == TypeError {
      TypeErrorRaises(plan);
    }
    if Raises(plan) {
      var i, j :| && 0 <= i < |plan.stages| && 0 <= j < |plan.stages[i].inputs|
                  && Reaches(plan, i, j) && ReadsNull(plan, plan.stages[i], plan.stages[i].inputs[j]);
      RaisesTypeError(plan, i, j);
    }
  }

  /** Such a plan: an earlier stage reads a later one whose `outputs` is null. */
  lemma NullOutputsRaise()
    ensures var b := Binding(Some("late"), None, Some("out"), None, None, true);
            var early := Stage("early", ["late"], Items([]), [b], true);
            var late := Stage("late", [], NotIterable, [], true);
            var photo := Object(Some("photo"), Some("image"), Some("image/png"), true, true);
            Raises(Plan([photo], [early, late], [FinalOutput("late", "out")], true, true))
  {
    var b := Binding(Some("late"), None, Some("out"), None, None, true);
    var early := Stage("early", ["late"], Items([]), [b], true);
    var late := Stage("late", [], NotIterable, [], true);
    var photo := Object(Some("photo"), Some("image"), Some("image/png"), true, true);
    var plan := Plan([photo], [early, late], [FinalOutput("late", "out")], true, true);
    assert "early" != "late" by {
      assert |"early"| != |"late"|;
    }
    assert late == plan.stages[1] && late in plan.stages && HasStage(plan.stages, "late");
    assert Reaches(plan, 0, 0);
    assert ReadsNull(plan, plan.stages[0], plan.stages[0].inputs[0]);
  }
}
