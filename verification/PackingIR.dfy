/** A small model of the compiler's intermediate code: one basic block of pure instructions. */
module PackingIR {
  import opened Basics
  import opened BlockOrder

  // An operand: the result of an instruction, an argument of the enclosing function, a constant,
  // or a formal argument of the function being outlined.
  datatype Value = Insn(id: Id) | Param(index: nat) | Const(value: int) | Formal(index: nat)

  // Run-time values.  A pointer to a struct nobody writes again is the boxed struct.
  datatype Data = Word(value: int) | Struct(fields: seq<Data>) | Box(fields: seq<Data>)

  // The outlined function: how its arguments arrive, its instructions in order, and what it returns.
  datatype Body = Body(packed: bool, threshold: nat, insns: seq<Id>, operands: map<Id, seq<Value>>, outputs: seq<Id>)

  // What an instruction does with its operands.  Pack(n) stores its first n operands in a fresh
  // struct and returns the pointer; a further operand only chains it to the previous pack.
  datatype Code = Phi | Pure | Pack(count: nat) | Call(body: Body) | Extract(index: nat)

  type Env = map<Id, Data>

  // The operators themselves stay uninterpreted; params are the enclosing function's arguments.
  datatype Semantics = Semantics(op: (Id, seq<Data>) -> Data, params: nat -> Data)

  // A function body as far as the rewriter looks at it: one block in order, and every instruction's operands and code.
  datatype Func = Func(order: seq<Id>, operands: map<Id, seq<Value>>, code: map<Id, Code>)

  function Get(env: Env, x: Id): Data { if x in env then env[x] else Word(0) }

  function Read(M: Semantics, env: Env, formals: seq<Data>, v: Value): Data
  {
    match v
    case Insn(x) => Get(env, x)
    case Param(k) => M.params(k)
    case Const(c) => Word(c)
    case Formal(j) => if j < |formals| then formals[j] else Word(0)
  }

  function ReadAll(M: Semantics, env: Env, formals: seq<Data>, vs: seq<Value>): (ds: seq<Data>)
    ensures |ds| == |vs| && forall i :: 0 <= i < |vs| ==> ds[i] == Read(M, env, formals, vs[i])
  {
    seq(|vs|, i requires 0 <= i < |vs| => Read(M, env, formals, vs[i]))
  }

  // ---------- the packing of arguments

  function NumStructs(n: nat, T: nat): nat
    requires T >= 1
  {
    (n + T - 1) / T
  }

  // The fields of the i-th struct.
  function Slice<A>(args: seq<A>, T: nat, i: nat): (s: seq<A>)
    requires i * T <= |args|
  {
    args[i * T..if i * T + T <= |args| then i * T + T else |args|]
  }

  function Fields(d: Data): seq<Data> { if d.Box? then d.fields else [] }

  // What the outlined function extracts from the structs it is given, struct after struct.
  function Unpack(boxes: seq<Data>): seq<Data>
  {
    if boxes == [] then [] else Unpack(boxes[..|boxes| - 1]) + Fields(boxes[|boxes| - 1])
  }

  // ---------- execution

  function RunInsns(M: Semantics, body: Body, formals: seq<Data>, n: nat): (env: Env)
    requires n <= |body.insns|
  {
    if n == 0 then map[]
    else
      var e := RunInsns(M, body, formals, n - 1);
      var c := body.insns[n - 1];
      e[c := M.op(c, ReadAll(M, e, formals, if c in body.operands then body.operands[c] else []))]
  }

  function RunBody(M: Semantics, body: Body, inputs: seq<Data>): Data
  {
    var formals := if body.packed then Unpack(inputs) else inputs;
    var e := RunInsns(M, body, formals, |body.insns|);
    if |body.outputs| == 1 then Get(e, body.outputs[0])
    else Struct(seq(|body.outputs|, i requires 0 <= i < |body.outputs| => Get(e, body.outputs[i])))
  }

  function Apply(M: Semantics, x: Id, code: Code, ds: seq<Data>): Data
  {
    match code
    case Phi => Word(0)
    case Pure => M.op(x, ds)
    case Pack(n) => Box(if n <= |ds| then ds[..n] else ds)
    case Call(body) => RunBody(M, body, ds)
    case Extract(k) => if |ds| == 1 && ds[0].Struct? && k < |ds[0].fields| then ds[0].fields[k] else Word(0)
  }

  predicate Known(F: Func)
  {
    forall x :: x in F.order ==> x in F.operands && x in F.code
  }

  // The value instruction x computes when its operands have the values in env.
  function ValueIn(M: Semantics, F: Func, env: Env, x: Id): Data
    requires x in F.operands && x in F.code
  {
    Apply(M, x, F.code[x], ReadAll(M, env, [], F.operands[x]))
  }

  // Running the first n instructions of the block.  Phis, and whatever lies outside the block, have
  // their values on entry.
  function Exec(M: Semantics, F: Func, entry: Env, n: nat): (env: Env)
    requires Known(F) && n <= |F.order|
  {
    if n == 0 then entry
    else
      var e, x := Exec(M, F, entry, n - 1), F.order[n - 1];
      if F.code[x] == Phi then e else e[x := ValueIn(M, F, e, x)]
  }

  function Run(M: Semantics, F: Func, entry: Env): Env
    requires Known(F)
  {
    Exec(M, F, entry, |F.order|)
  }

  // ---------- order

  // Instruction u reads the result of d.
  predicate Reads(operands: map<Id, seq<Value>>, u: Id, d: Id)
  {
    u in operands && Insn(d) in operands[u]
  }

  // Every definition in the block precedes its non-phi uses in the block.
  ghost predicate Topological(F: Func)
    requires Known(F)
  {
    forall u, d :: u in F.order && d in F.order && F.code[u] != Phi && Reads(F.operands, u, d) ==> Before(F.order, d, u)
  }

  ghost predicate PhisFirst(F: Func)
    requires Known(F)
  {
    forall p, x :: p in F.order && x in F.order && F.code[p] == Phi && F.code[x] != Phi ==> Before(F.order, p, x)
  }

  // ---------- a block in topological order has exactly one solution of its equations

  ghost predicate SolvesAt(M: Semantics, F: Func, entry: Env, w: Env, x: Id)
    requires Known(F) && x in F.order
  {
    Get(w, x) == if F.code[x] == Phi then Get(entry, x) else ValueIn(M, F, w, x)
  }

  // w gives every instruction of the block the value of its equation, and agrees with entry on
  // whatever the block reads from outside.
  ghost predicate Solution(M: Semantics, F: Func, entry: Env, w: Env)
    requires Known(F)
  {
    && (forall x :: x in F.order ==> SolvesAt(M, F, entry, w, x))
    && (forall u, d :: u in F.order && d !in F.order && Reads(F.operands, u, d) ==> Get(w, d) == Get(entry, d))
  }

  lemma {:induction false} ExecFrame(M: Semantics, F: Func, entry: Env, n: nat, x: Id)
    requires Known(F) && n <= |F.order| && x !in F.order[..n]
    ensures Get(Exec(M, F, entry, n), x) == Get(entry, x)
  {
    if n > 0 { ExecFrame(M, F, entry, n - 1, x); }
  }

  // Once computed, a value stays.
  lemma {:induction false} ExecStays(M: Semantics, F: Func, entry: Env, m: nat, n: nat, x: Id)
    requires Known(F) && Distinct(F.order) && m <= n <= |F.order| && x in F.order[..m]
    ensures Get(Exec(M, F, entry, n), x) == Get(Exec(M, F, entry, m), x)
    decreases n
  {
    if m < n {
      assert F.order[n - 1] != x;
      ExecStays(M, F, entry, m, n - 1, x);
    }
  }

  lemma InPrefix(B: seq<Id>, n: nat, x: Id)
    requires Distinct(B) && n <= |B| && x in B
    ensures x in B[..n] <==> Pos(B, x) < n
  {
    if Pos(B, x) < n { assert B[..n][Pos(B, x)] == x; }
    if k: nat :| k < n && B[k] == x { PosAt(B, k); }
  }

  lemma SameReads(M: Semantics, F: Func, v: Env, w: Env, x: Id)
    requires x in F.operands && x in F.code
    requires forall d :: Reads(F.operands, x, d) ==> Get(v, d) == Get(w, d)
    ensures ValueIn(M, F, v, x) == ValueIn(M, F, w, x)
  {
    var vs := F.operands[x];
    forall i | 0 <= i < |vs| ensures Read(M, v, [], vs[i]) == Read(M, w, [], vs[i]) {
      if vs[i].Insn? { assert Reads(F.operands, x, vs[i].id); }
    }
    assert ReadAll(M, v, [], vs) == ReadAll(M, w, [], vs);
  }

  lemma RunSolvesAt(M: Semantics, F: Func, entry: Env, n: nat)
    requires Known(F) && Distinct(F.order) && Topological(F) && n < |F.order|
    ensures SolvesAt(M, F, entry, Run(M, F, entry), F.order[n])
  {
    var x, e, all := F.order[n], Exec(M, F, entry, n), Run(M, F, entry);
    assert x in F.order[..n + 1];
    ExecStays(M, F, entry, n + 1, |F.order|, x);
    PosAt(F.order, n);
    InPrefix(F.order, n, x);
    ExecFrame(M, F, entry, n, x);
    if F.code[x] != Phi {
      forall d | Reads(F.operands, x, d) ensures Get(e, d) == Get(all, d) {
        if d in F.order {
          InPrefix(F.order, n, d);
          ExecStays(M, F, entry, n, |F.order|, d);
        } else {
          ExecFrame(M, F, entry, n, d);
          ExecFrame(M, F, entry, |F.order|, d);
        }
      }
      SameReads(M, F, e, all, x);
    }
  }

  lemma RunSolves(M: Semantics, F: Func, entry: Env)
    requires Known(F) && Distinct(F.order) && Topological(F)
    ensures Solution(M, F, entry, Run(M, F, entry))
  {
    forall x | x in F.order ensures SolvesAt(M, F, entry, Run(M, F, entry), x) {
      RunSolvesAt(M, F, entry, Pos(F.order, x));
    }
    forall u, d | u in F.order && d !in F.order && Reads(F.operands, u, d)
      ensures Get(Run(M, F, entry), d) == Get(entry, d)
    {
      ExecFrame(M, F, entry, |F.order|, d);
    }
  }

  // Any solution is what running the block computes.
  lemma {:induction false} SolutionUnique(M: Semantics, F: Func, entry: Env, w: Env, n: nat)
    requires Known(F) && Distinct(F.order) && Topological(F) && Solution(M, F, entry, w) && n < |F.order|
    ensures Get(w, F.order[n]) == Get(Run(M, F, entry), F.order[n])
    decreases n
  {
    var x, all := F.order[n], Run(M, F, entry);
    RunSolvesAt(M, F, entry, n);
    assert SolvesAt(M, F, entry, w, x);
    PosAt(F.order, n);
    if F.code[x] != Phi {
      forall d | Reads(F.operands, x, d) ensures Get(w, d) == Get(all, d) {
        if d in F.order {
          SolutionUnique(M, F, entry, w, Pos(F.order, d));
        } else {
          ExecFrame(M, F, entry, |F.order|, d);
        }
      }
      SameReads(M, F, w, all, x);
    }
  }
}
