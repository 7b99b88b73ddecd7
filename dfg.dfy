/** The SSA data-flow graph of the Noir evaluator: four growing arenas (instructions,
    values, blocks and per-instruction result lists) that hand out fresh ids.

    A `DenseMap` is a sequence whose next id is its length; the `SecondaryMap` of
    result lists is a map from instruction id to a `ValueList` object. */
module SsaDfg {

  type InstructionId = nat
  type ValueId = nat
  type BasicBlockId = nat

  /** Types are carried by values but never inspected by the graph. Only the
      numeric kinds are spelled out here. */
  datatype NumericType = Signed(bitSize: nat) | Unsigned(bitSize: nat) | NativeField
  datatype Type = Numeric(numericType: NumericType)

  /** The graph only distinguishes calls (whose result types are not supported yet)
      from every other instruction. */
  datatype Instruction =
    | Immediate(value: int)
    | Call(func: nat, arguments: seq<ValueId>)
    | Operation(opcode: nat, arguments: seq<ValueId>)

  /** A value is either the `position`-th result of an instruction or the
      `position`-th parameter of a block. */
  datatype Value =
    | InstructionResult(instruction: InstructionId, position: nat, typ: Type)
    | Param(block: BasicBlockId, position: nat, typ: Type)

  datatype BasicBlock = BasicBlock(parameters: seq<ValueId>)

  /** The `n` consecutive ids an arena hands out when it holds `base` entries. */
  function FreshIds(base: nat, n: nat): (ids: seq<ValueId>)
    ensures |ids| == n
    ensures forall i :: 0 <= i < n ==> ids[i] == base + i
  {
    if n == 0 then [] else FreshIds(base, n - 1) + [base + n - 1]
  }

  /** The first `n` result values of instruction `id`: the `i`-th has the `i`-th type
      and records position `i`. */
  function ResultValues(id: InstructionId, typs: seq<Type>, n: nat): (vs: seq<Value>)
    requires n <= |typs|
    ensures |vs| == n
    ensures forall i :: 0 <= i < n ==> vs[i] == InstructionResult(id, i, typs[i])
  {
    if n == 0 then [] else ResultValues(id, typs, n - 1) + [InstructionResult(id, n - 1, typs[n - 1])]
  }

  /** The first `n` parameter values of block `b`, in the same way. */
  function ParamValues(b: BasicBlockId, typs: seq<Type>, n: nat): (vs: seq<Value>)
    requires n <= |typs|
    ensures |vs| == n
    ensures forall i :: 0 <= i < n ==> vs[i] == Param(b, i, typs[i])
  {
    if n == 0 then [] else ParamValues(b, typs, n - 1) + [Param(b, n - 1, typs[n - 1])]
  }

  /** Value id `v` exists and records that it is result number `p` of instruction `id`. */
  predicate IsResultOf(values: seq<Value>, v: ValueId, id: InstructionId, p: nat) {
    v < |values| && values[v].InstructionResult? &&
    values[v].instruction == id && values[v].position == p
  }

  /** Value id `v` exists and records that it is parameter number `p` of block `b`. */
  predicate IsParamOf(values: seq<Value>, v: ValueId, b: BasicBlockId, p: nat) {
    v < |values| && values[v].Param? && values[v].block == b && values[v].position == p
  }

  /** Every entry of every result list names a value that points back at its slot. */
  predicate ResultsPointBack(values: seq<Value>, lists: map<InstructionId, seq<ValueId>>) {
    forall id, p :: id in lists && 0 <= p < |lists[id]| ==> IsResultOf(values, lists[id][p], id, p)
  }

  /** Every parameter of every block names a value that points back at its slot. */
  predicate ParamsPointBack(values: seq<Value>, blocks: seq<BasicBlock>) {
    forall b, p :: 0 <= b < |blocks| && 0 <= p < |blocks[b].parameters| ==>
      IsParamOf(values, blocks[b].parameters[p], b, p)
  }

  /** Inserting values never breaks a back-pointer: existing ids keep their values. */
  lemma GrowValuesKeepsPointBack(values: seq<Value>, extra: seq<Value>,
                                 lists: map<InstructionId, seq<ValueId>>, blocks: seq<BasicBlock>)
    requires ResultsPointBack(values, lists) && ParamsPointBack(values, blocks)
    ensures ResultsPointBack(values + extra, lists) && ParamsPointBack(values + extra, blocks)
  {
    forall id, p | id in lists && 0 <= p < |lists[id]|
      ensures IsResultOf(values + extra, lists[id][p], id, p)
    {
      assert IsResultOf(values, lists[id][p], id, p);
    }
    forall b, p | 0 <= b < |blocks| && 0 <= p < |blocks[b].parameters|
      ensures IsParamOf(values + extra, blocks[b].parameters[p], b, p)
    {
      assert IsParamOf(values, blocks[b].parameters[p], b, p);
    }
  }

  /** Appending a fresh result value at the end of instruction `id`'s list, with the
      list's old length as its position, keeps every result list consistent. */
  lemma AppendResultKeepsPointBack(values: seq<Value>, lists: map<InstructionId, seq<ValueId>>,
                                   id: InstructionId, typ: Type)
    requires ResultsPointBack(values, lists) && id in lists
    ensures ResultsPointBack(values + [InstructionResult(id, |lists[id]|, typ)],
                             lists[id := lists[id] + [|values|]])
  {
    var values' := values + [InstructionResult(id, |lists[id]|, typ)];
    var lists' := lists[id := lists[id] + [|values|]];
    forall j, p | j in lists' && 0 <= p < |lists'[j]|
      ensures IsResultOf(values', lists'[j][p], j, p)
    {
      if j == id && p == |lists[id]| {
        assert lists'[j][p] == |values|;
      } else {
        assert lists'[j][p] == lists[j][p];
        assert IsResultOf(values, lists[j][p], j, p);
      }
    }
  }

  /** Appending a fresh parameter value to block `b`, with the block's old parameter
      count as its position, keeps every block consistent. */
  lemma AddParameterKeepsPointBack(values: seq<Value>, blocks: seq<BasicBlock>,
                                   b: BasicBlockId, typ: Type)
    requires ParamsPointBack(values, blocks) && b < |blocks|
    ensures ParamsPointBack(values + [Param(b, |blocks[b].parameters|, typ)],
                            blocks[b := BasicBlock(blocks[b].parameters + [|values|])])
  {
    var values' := values + [Param(b, |blocks[b].parameters|, typ)];
    var blocks' := blocks[b := BasicBlock(blocks[b].parameters + [|values|])];
    forall c, p | 0 <= c < |blocks'| && 0 <= p < |blocks'[c].parameters|
      ensures IsParamOf(values', blocks'[c].parameters[p], c, p)
    {
      if c == b && p == |blocks[b].parameters| {
        assert blocks'[c].parameters[p] == |values|;
      } else {
        assert blocks'[c].parameters[p] == blocks[c].parameters[p];
        assert IsParamOf(values, blocks[c].parameters[p], c, p);
      }
    }
  }

  /** A consistent graph never lists the same value twice among one instruction's
      results, nor as a result of two different instructions. */
  lemma {:induction false} ResultsAreDistinct(values: seq<Value>, lists: map<InstructionId, seq<ValueId>>,
                                              i: InstructionId, p: nat, j: InstructionId, q: nat)
    requires ResultsPointBack(values, lists)
    requires i in lists && p < |lists[i]| && j in lists && q < |lists[j]|
    requires i != j || p != q
    ensures lists[i][p] != lists[j][q]
  {
    assert IsResultOf(values, lists[i][p], i, p);
    assert IsResultOf(values, lists[j][q], j, q);
  }

  /** The same for block parameters. */
  lemma {:induction false} ParamsAreDistinct(values: seq<Value>, blocks: seq<BasicBlock>,
                                             b: BasicBlockId, p: nat, c: BasicBlockId, q: nat)
    requires ParamsPointBack(values, blocks)
    requires b < |blocks| && p < |blocks[b].parameters| && c < |blocks| && q < |blocks[c].parameters|
    requires b != c || p != q
    ensures blocks[b].parameters[p] != blocks[c].parameters[q]
  {
    assert IsParamOf(values, blocks[b].parameters[p], b, p);
    assert IsParamOf(values, blocks[c].parameters[q], c, q);
  }

  /** A growable list of value ids. */
  class ValueList {
    var items: seq<ValueId>

    constructor ()
      ensures AsSlice() == [] && Len() == 0
    {
      items := [];
    }

    /** Appends `value` and returns the slot it now occupies. */
    method Push(value: ValueId) returns (position: nat)
      modifies this
      ensures AsSlice() == old(AsSlice()) + [value]
      ensures Len() == old(Len()) + 1
      ensures position == old(Len()) && AsSlice()[position] == value
    {
      items := items + [value];
      position := Len() - 1;
    }

    /** The number of ids in the list. */
    function Len(): nat
      reads this
    {
      |items|
    }

    method Clear()
      modifies this
      ensures AsSlice() == [] && Len() == 0
    {
      items := [];
    }

    /** The ids the list holds, in insertion order. */
    function AsSlice(): seq<ValueId>
      reads this
    {
      items
    }
  }

  class DataFlowGraph {
    var instructions: seq<Instruction>
    var results: map<InstructionId, ValueList>
    var values: seq<Value>
    var blocks: seq<BasicBlock>

    /** `Instruction::return_types`, whose definition is not part of this model:
        the result types of a non-call instruction given the controlling type. */
    const returnTypes: (Instruction, Type) -> seq<Type>

    /** The contents of every result list, keyed by instruction. */
    ghost function ResultLists(): map<InstructionId, seq<ValueId>>
      reads this, results.Values
    {
      map id | id in results :: results[id].items
    }

    /** Every instruction id has its own result list, and every result and parameter
        slot names a value that records that slot. */
    ghost predicate Valid()
      reads this, results.Values
    {
      (forall id: InstructionId :: id in results <==> id < |instructions|) &&
      (forall i, j :: i in results && j in results && i != j ==> results[i] != results[j]) &&
      ResultsPointBack(values, ResultLists()) &&
      ParamsPointBack(values, blocks)
    }

    /** The empty graph (`DataFlowGraph::default()`). */
    constructor (returnTypes: (Instruction, Type) -> seq<Type>)
      ensures Valid()
      ensures instructions == [] && results == map[] && values == [] && blocks == []
      ensures this.returnTypes == returnTypes
    {
      instructions, results, values, blocks := [], map[], [], [];
      this.returnTypes := returnTypes;
    }

    /** Creates a block with no parameters; its id is the number of blocks before. */
    method NewBlock() returns (id: BasicBlockId)
      requires Valid()
      modifies this
      ensures Valid()
      ensures id == |old(blocks)| && blocks == old(blocks) + [BasicBlock([])]
      ensures BlockParameters(id) == []
      ensures instructions == old(instructions) && results == old(results) && values == old(values)
    {
      id := |blocks|;
      blocks := blocks + [BasicBlock([])];
    }

    /** Creates a block whose `i`-th parameter is a fresh `Param` value of the `i`-th
        type, recording the new block's id and position `i`. */
    method NewBlockWithParameters(parameterTypes: seq<Type>) returns (id: BasicBlockId)
      requires Valid()
      modifies this
      ensures Valid()
      ensures id == |old(blocks)|
      ensures blocks == old(blocks) + [BasicBlock(FreshIds(|old(values)|, |parameterTypes|))]
      ensures values == old(values) + ParamValues(id, parameterTypes, |parameterTypes|)
      ensures instructions == old(instructions) && results == old(results)
    {
      id := |blocks|;
      var parameters: seq<ValueId> := [];
      var position := 0;
      while position < |parameterTypes|
        invariant 0 <= position <= |parameterTypes|
        invariant Valid()
        invariant values == old(values) + ParamValues(id, parameterTypes, position)
        invariant parameters == FreshIds(|old(values)|, position)
        invariant instructions == old(instructions) && results == old(results) && blocks == old(blocks)
      {
        var v := MakeValue(Param(id, position, parameterTypes[position]));
        parameters := parameters + [v];
        position := position + 1;
      }
      forall p | 0 <= p < |parameters|
        ensures IsParamOf(values, parameters[p], |blocks|, p)
      {
        assert values[parameters[p]] == ParamValues(id, parameterTypes, position)[p];
      }
      blocks := blocks + [BasicBlock(parameters)];
    }

    /** The parameters of a block: the `p`-th is a value recording this block and
        position `p`. */
    function BlockParameters(block: BasicBlockId): (parameters: seq<ValueId>)
      requires Valid() && block < |blocks|
      reads this, results.Values
      ensures forall p :: 0 <= p < |parameters| ==> IsParamOf(values, parameters[p], block, p)
    {
      blocks[block].parameters
    }

    /** Inserts an instruction and gives it a fresh, empty result list. */
    method MakeInstruction(instructionData: Instruction) returns (id: InstructionId)
      requires Valid()
      modifies this
      ensures Valid()
      ensures id == |old(instructions)| && instructions == old(instructions) + [instructionData]
      ensures id !in old(results) && results.Keys == old(results).Keys + {id}
      ensures fresh(results[id]) && results[id].items == []
      ensures forall j :: j in old(results) ==> results[j] == old(results)[j]
      ensures values == old(values) && blocks == old(blocks)
    {
      id := |instructions|;
      instructions := instructions + [instructionData];
      var list := new ValueList();
      results := results[id := list];
      assert ResultLists() == old(ResultLists())[id := []];
    }

    /** Inserts an arbitrary value and returns its fresh id. */
    method MakeValue(value: Value) returns (id: ValueId)
      requires Valid()
      modifies this
      ensures Valid()
      ensures id == |old(values)| && values == old(values) + [value]
      ensures instructions == old(instructions) && results == old(results) && blocks == old(blocks)
    {
      id := |values|;
      GrowValuesKeepsPointBack(values, [value], ResultLists(), blocks);
      values := values + [value];
    }

    /** The result types of a non-call instruction. Calls are not supported. */
    function InstructionResultTypes(instructionId: InstructionId, ctrlTypevar: Type): seq<Type>
      requires instructionId < |instructions| && !instructions[instructionId].Call?
      reads this
    {
      returnTypes(instructions[instructionId], ctrlTypevar)
    }

    /** Replaces the instruction's results by one fresh value per result type, the
        `i`-th recording position `i`; returns how many there are. Earlier results
        are dropped from the list, so repeated calls do not accumulate. */
    method MakeInstructionResults(instructionId: InstructionId, ctrlTypevar: Type) returns (numTyps: nat)
      requires Valid()
      requires instructionId < |instructions| && !instructions[instructionId].Call?
      modifies this, results[instructionId]
      ensures Valid()
      ensures instructions == old(instructions) && blocks == old(blocks)
      ensures numTyps == |InstructionResultTypes(instructionId, ctrlTypevar)|
      ensures InstructionResults(instructionId) == FreshIds(|old(values)|, numTyps)
      ensures values == old(values) + ResultValues(instructionId, InstructionResultTypes(instructionId, ctrlTypevar), numTyps)
      ensures results == old(results)
      ensures forall j :: j in results && j != instructionId ==> results[j].items == old(results[j].items)
    {
      results[instructionId].Clear();
      assert ResultLists() == old(ResultLists())[instructionId := []];
      var typs := InstructionResultTypes(instructionId, ctrlTypevar);
      numTyps := |typs|;
      var k := 0;
      while k < numTyps
        invariant 0 <= k <= numTyps
        invariant Valid()
        invariant results == old(results)
        invariant instructions == old(instructions) && blocks == old(blocks)
        invariant forall j :: j in results && j != instructionId ==> results[j].items == old(results[j].items)
        invariant values == old(values) + ResultValues(instructionId, typs, k)
        invariant results[instructionId].items == FreshIds(|old(values)|, k)
      {
        var _ := AppendResult(instructionId, typs[k]);
        k := k + 1;
      }
    }

    /** Adds one result of type `typ`: a fresh value recording the instruction and the
        slot it takes in the instruction's result list. */
    method AppendResult(instructionId: InstructionId, typ: Type) returns (valueId: ValueId)
      requires Valid() && instructionId in results
      modifies this, results[instructionId]
      ensures Valid()
      ensures valueId == |old(values)|
      ensures values == old(values) + [InstructionResult(instructionId, |old(results[instructionId].items)|, typ)]
      ensures results == old(results)
      ensures results[instructionId].items == old(results[instructionId].items) + [valueId]
      ensures forall j :: j in results && j != instructionId ==> results[j].items == old(results[j].items)
      ensures instructions == old(instructions) && blocks == old(blocks)
    {
      var list := results[instructionId];
      var expectedResPosition := list.Len();
      AppendResultKeepsPointBack(values, ResultLists(), instructionId, typ);
      GrowValuesKeepsPointBack(values, [InstructionResult(instructionId, expectedResPosition, typ)], map[], blocks);
      valueId := |values|;
      values := values + [InstructionResult(instructionId, expectedResPosition, typ)];
      var actualResPosition := list.Push(valueId);
      assert actualResPosition == expectedResPosition;
      assert ResultLists() == old(ResultLists())[instructionId := old(results[instructionId].items) + [valueId]];
    }

    /** The number of instruction ids handed out so far; exactly these ids have a
        result list. */
    function NumInstructions(): (n: nat)
      requires Valid()
      reads this, results.Values
      ensures forall id: InstructionId :: id in results <==> id < n
    {
      |instructions|
    }

    /** The results attached to an instruction: the `p`-th is a value recording this
        instruction and position `p`. */
    function InstructionResults(instructionId: InstructionId): (rs: seq<ValueId>)
      requires Valid() && instructionId in results
      reads this, results.Values
      ensures forall p :: 0 <= p < |rs| ==> IsResultOf(values, rs[p], instructionId, p)
    {
      assert ResultLists()[instructionId] == results[instructionId].AsSlice();
      results[instructionId].AsSlice()
    }

    /** Adds a parameter of type `typ` to a block: a fresh `Param` value whose position
        is the block's previous parameter count. */
    method AddBlockParameter(blockId: BasicBlockId, typ: Type) returns (parameter: ValueId)
      requires Valid() && blockId < |blocks|
      modifies this
      ensures Valid()
      ensures parameter == |old(values)|
      ensures values == old(values) + [Param(blockId, |old(blocks)[blockId].parameters|, typ)]
      ensures blocks == old(blocks)[blockId := BasicBlock(old(blocks)[blockId].parameters + [parameter])]
      ensures instructions == old(instructions) && results == old(results)
    {
      var block := blocks[blockId];
      var position := |block.parameters|;
      AddParameterKeepsPointBack(values, blocks, blockId, typ);
      GrowValuesKeepsPointBack(values, [Param(blockId, position, typ)], ResultLists(), []);
      parameter := |values|;
      values := values + [Param(blockId, position, typ)];
      blocks := blocks[blockId := BasicBlock(block.parameters + [parameter])];
    }
  }
}
