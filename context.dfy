/** The part of the file-information builder that the Ada state machine
    drives: the nesting stack, the namespaces, the function being read with
    the functions it interrupted, and the list of finished functions. */
module Context {

  /** A subprogram as the state machine records it: the name given to
      `push_new_function` and the tokens given to `parameter`. */
  datatype FunctionInfo = FunctionInfo(name: string, parameters: seq<string>)

  /** The pseudo-function that stands for the file outside any subprogram. */
  const GlobalPseudoFunction: FunctionInfo := FunctionInfo("*global*", [])

  /** A marker on the nesting stack. The Ada machine only ever pushes bare
      nesting (an `if`, a loop, a block, a package body). */
  datatype Nesting = BareNesting

  /** The value of a context. */
  datatype Ctx = Ctx(
    nestingStack: seq<Nesting>,
    namespaces: seq<string>,
    current: FunctionInfo,
    stacked: seq<FunctionInfo>,
    functionList: seq<FunctionInfo>)

  /** A fresh context, before any token has been read. */
  const EmptyCtx: Ctx := Ctx([], [], GlobalPseudoFunction, [], [])

  /** `current_nesting_level`: the number of open markers. */
  function NestingLevel(c: Ctx): (r: nat) {
    |c.nestingStack|
  }

  function WithBareNesting(c: Ctx): (r: Ctx) {
    c.(nestingStack := c.nestingStack + [BareNesting])
  }

  /** `nesting_stack.pop()`. */
  function WithoutTopNesting(c: Ctx): (r: Ctx)
    requires c.nestingStack != []
  {
    c.(nestingStack := c.nestingStack[..|c.nestingStack| - 1])
  }

  /** `push_new_function(name)`: the current function is suspended and a new
      one, with no parameters yet, becomes current. */
  function WithNewFunction(c: Ctx, name: string): (r: Ctx) {
    c.(stacked := c.stacked + [c.current], current := FunctionInfo(name, []))
  }

  /** `end_of_function()`: the current function is finished and the one it
      interrupted, or the global pseudo-function, becomes current. */
  function WithFunctionEnded(c: Ctx): (r: Ctx) {
    if c.stacked == [] then
      c.(functionList := c.functionList + [c.current], current := GlobalPseudoFunction)
    else
      c.(functionList := c.functionList + [c.current],
         current := c.stacked[|c.stacked| - 1],
         stacked := c.stacked[..|c.stacked| - 1])
  }

  /** `add_namespace(name)`. */
  function WithNamespace(c: Ctx, name: string): (r: Ctx) {
    c.(namespaces := c.namespaces + [name])
  }

  /** `parameter(token)`: the token is added to the current function. */
  function WithParameter(c: Ctx, token: string): (r: Ctx) {
    c.(current := c.current.(parameters := c.current.parameters + [token]))
  }

  /** Ending a function right after starting it finishes exactly that
      function and leaves everything else as it was. */
  lemma EndUndoesPush(c: Ctx, name: string)
    ensures WithFunctionEnded(WithNewFunction(c, name))
         == c.(functionList := c.functionList + [FunctionInfo(name, [])])
  {
    var d := WithNewFunction(c, name);
    assert d.stacked[..|d.stacked| - 1] == c.stacked;
  }

  /** Popping a marker right after pushing one restores the stack. */
  lemma PopUndoesPush(c: Ctx)
    ensures WithoutTopNesting(WithBareNesting(c)) == c
  {
    assert (c.nestingStack + [BareNesting])[..|c.nestingStack|] == c.nestingStack;
  }

  /** Ending a function appends exactly the current function to the list and
      removes one suspended function, if there is one. */
  lemma EndAppendsCurrent(c: Ctx)
    ensures WithFunctionEnded(c).functionList == c.functionList + [c.current]
    ensures |WithFunctionEnded(c).stacked| == if c.stacked == [] then 0 else |c.stacked| - 1
    ensures WithFunctionEnded(c).nestingStack == c.nestingStack
    ensures WithFunctionEnded(c).namespaces == c.namespaces
  {
  }

  /** The context object the state machine calls into. */
  class FileInfoBuilder {
    var nestingStack: seq<Nesting>
    var namespaces: seq<string>
    var currentFunction: FunctionInfo
    var stackedFunctions: seq<FunctionInfo>
    var functionList: seq<FunctionInfo>

    function Model(): (r: Ctx)
      reads this
    {
      Ctx(nestingStack, namespaces, currentFunction, stackedFunctions, functionList)
    }

    constructor ()
      ensures Model() == EmptyCtx
    {
      nestingStack := [];
      namespaces := [];
      currentFunction := GlobalPseudoFunction;
      stackedFunctions := [];
      functionList := [];
    }

    function CurrentNestingLevel(): (level: nat)
      reads this
      ensures level == NestingLevel(Model())
    {
      |nestingStack|
    }

    method AddBareNesting()
      modifies this
      ensures Model() == WithBareNesting(old(Model()))
    {
      nestingStack := nestingStack + [BareNesting];
    }

    method PopNesting()
      requires nestingStack != []
      modifies this
      ensures Model() == WithoutTopNesting(old(Model()))
    {
      nestingStack := nestingStack[..|nestingStack| - 1];
    }

    method PushNewFunction(name: string)
      modifies this
      ensures Model() == WithNewFunction(old(Model()), name)
    {
      stackedFunctions := stackedFunctions + [currentFunction];
      currentFunction := FunctionInfo(name, []);
    }

    method EndOfFunction()
      modifies this
      ensures Model() == WithFunctionEnded(old(Model()))
    {
      functionList := functionList + [currentFunction];
      if stackedFunctions == [] {
        currentFunction := GlobalPseudoFunction;
      } else {
        currentFunction := stackedFunctions[|stackedFunctions| - 1];
        stackedFunctions := stackedFunctions[..|stackedFunctions| - 1];
      }
    }

    method AddNamespace(name: string)
      modifies this
      ensures Model() == WithNamespace(old(Model()), name)
    {
      namespaces := namespaces + [name];
    }

    method Parameter(token: string)
      modifies this
      ensures Model() == WithParameter(old(Model()), token)
    {
      currentFunction := currentFunction.(parameters := currentFunction.parameters + [token]);
    }
  }
}
