/** The Ada subprogram-recognition state machine (class `AdaStates`). The
    machine reads one token at a time; each state is a handler that may call
    into the context, change the state, and hand the same token on to the
    next state. */
module AdaMachine {
  import opened Wrappers
  import opened AdaReader
  import opened Context

  const SubprogramTokens: set<string> := {"function", "procedure"}
  const NestingKeywords: set<string> := {"then", "do", "loop"}
  const PackageTokens: set<string> := {"package", "package body"}
  const ElseKeywords: set<string> := {"elsif", "else"}
  const TrivialEndKeywords: set<string> := {"if", "loop", "case"}

  /** The handlers, one per state. */
  datatype State =
    | Global            // _state_global
    | Subprogram        // _subprogram
    | SubprogramName    // _subprogram_name
    | ExpectParams      // _expect_subprogram_params
    | Params            // _subprogram_params, inside the parameter brackets
    | Defn              // _subprogram_defn
    | Decl              // _subprogram_decl
    | BeginSubprogram   // _begin_subprogram
    | Begin             // _begin
    | Else              // _else
    | Then              // _then
    | Package           // _package
    | Task              // _task
    | TaskName          // _task_name
    | TaskBody          // _task_body
    | End               // _end
    | IgnoreNext        // _ignore_next

  /** Handing a token on always goes to a state of lower rank, so a single
      token is handled by finitely many states. */
  function Rank(s: State): (r: nat) {
    match s
    case ExpectParams => 3
    case Defn | Task | TaskName => 2
    case Global | Subprogram | Decl | TaskBody => 1
    case _ => 0
  }

  /** The whole state the machine reads and writes: its own fields, the
      bracket depth of the parameter reader, the reader's macro switch, and
      the context. */
  datatype Machine = Machine(
    state: State,
    nestedFunctions: int,
    brCount: int,
    lastToken: Option<string>,
    macroDisabled: bool,
    ctx: Ctx)

  /** A machine created over the context `c`. */
  function Initial(c: Ctx): (r: Machine) {
    Machine(Global, 0, 0, None, false, c)
  }

  /** `reset_state()` without a token. */
  function Reset(m: Machine): (r: Machine) {
    m.(state := Global)
  }

  /** `_pop_bare_nesting`: pops a marker if there is one. */
  function PopBareNesting(m: Machine): (r: Machine) {
    var m1 := if m.ctx.nestingStack != [] then m.(ctx := WithoutTopNesting(m.ctx)) else m;
    Reset(m1)
  }

  /** `_pop_function_if_exists`: at nesting level zero the current function
      ends, and an enclosing routine with local routines pending resumes its
      declarative part; otherwise a marker is popped. */
  function PopFunctionIfExists(m: Machine): (r: Machine) {
    if NestingLevel(m.ctx) == 0 then
      var m1 := m.(ctx := WithFunctionEnded(m.ctx));
      if m1.nestedFunctions > 0 then
        m1.(nestedFunctions := m1.nestedFunctions - 1, state := Decl)
      else
        Reset(m1)
    else
      Reset(m.(ctx := WithoutTopNesting(m.ctx)))
  }

  /** `__call__(token)`: nothing happens while macros are disabled; otherwise
      the current state handles the token, which then becomes the last one. */
  function Step(m: Machine, token: string): (r: Machine)
    decreases Rank(m.state), 3
  {
    if m.macroDisabled then m
    else Dispatch(m, token).(lastToken := Some(token))
  }

  /** `self._state(token)`: the current handler applied to the token. Where
      a handler calls `next(s, token)`, the token is fed again, through
      `Step`, to the machine switched to `s`. */
  function Dispatch(m: Machine, token: string): (r: Machine)
    decreases Rank(m.state), 2
  {
    match m.state
    case Global =>
      var lower := Lower(token);
      if lower in SubprogramTokens then m.(state := Subprogram)
      else if lower in NestingKeywords then m.(state := Then)
      else if lower == "end" then m.(state := End)
      else if lower in PackageTokens then m.(state := Package)
      else if lower == "begin" then m.(state := Begin)
      else if lower in ElseKeywords then Step(m.(state := Else), token)
      else if lower == "task" then m.(state := Task)
      else if lower == ";" then Reset(m)
      else m
    case Subprogram =>
      Step(m.(state := SubprogramName), token)
    case SubprogramName =>
      m.(ctx := WithNewFunction(m.ctx, token), state := ExpectParams)
    case ExpectParams =>
      if token == "(" then Step(m.(state := Params), token) else Step(m.(state := Defn), token)
    case Params =>
      // read_inside_brackets_then('()', '_subprogram_defn')
      var br := if token == "(" then m.brCount + 1
                else if token == ")" then m.brCount - 1
                else m.brCount;
      var m1 := if br == 0 then m.(brCount := br, state := Defn) else m.(brCount := br);
      m1.(ctx := WithParameter(m1.ctx, token))
    case Defn =>
      if token == "with" || token == "return" then m
      else if token == "is" then Step(m.(state := Decl), token)
      else if token == ";" then
        // reset_state(token): back to global, which then sees the token
        Dispatch(Reset(m.(ctx := WithFunctionEnded(m.ctx))), token)
      else m
    case Decl =>
      if token == "begin" then Step(m.(state := BeginSubprogram), token)
      else if token == "end" then Step(m.(state := End), token)
      else if token in SubprogramTokens then
        m.(nestedFunctions := m.nestedFunctions + 1, state := Subprogram)
      else m
    case BeginSubprogram => Reset(m)
    case IgnoreNext => Reset(m)
    case Begin => Reset(m.(ctx := WithBareNesting(m.ctx)))
    case Else =>
      if token == "elsif" then PopBareNesting(m) else Reset(m)
    case Then => Reset(m.(ctx := WithBareNesting(m.ctx)))
    case Package =>
      if token == "body" then m
      else if token == "is" then Reset(m.(ctx := WithBareNesting(m.ctx)))
      else m.(ctx := WithNamespace(m.ctx, token))
    case TaskName =>
      Step(m.(ctx := WithNewFunction(m.ctx, token), state := TaskBody), token)
    case TaskBody =>
      if token == "body" then m.(state := TaskName)
      else if token == "begin" then Step(m.(state := BeginSubprogram), token)
      else m
    case Task =>
      if token == "body" then Step(m.(state := TaskBody), token) else Reset(m)
    case End =>
      if token in TrivialEndKeywords then PopBareNesting(m) else PopFunctionIfExists(m)
  }

  /** The machine after a whole token stream. */
  function Run(m: Machine, tokens: seq<string>): (r: Machine)
    decreases |tokens|
  {
    if tokens == [] then m else Run(Step(m, tokens[0]), tokens[1..])
  }

  /** The state machine object: its fields, the context it drives, and the
      reader's macro switch, which it consults on every token. */
  class AdaStates {
    const context: FileInfoBuilder
    var state: State
    var nestedFunctions: int
    var lastToken: Option<string>
    var brCount: int
    var macroDisabled: bool

    function Model(): (r: Machine)
      reads this, context
    {
      Machine(state, nestedFunctions, brCount, lastToken, macroDisabled, context.Model())
    }

    constructor (context: FileInfoBuilder)
      ensures this.context == context
      ensures Model() == Initial(context.Model())
    {
      this.context := context;
      state := Global;
      nestedFunctions := 0;
      lastToken := None;
      brCount := 0;
      macroDisabled := false;
    }

    /** `__call__(token)`. */
    method Feed(token: string)
      modifies this, context
      decreases Rank(state), 3
      ensures Model() == Step(old(Model()), token)
    {
      if macroDisabled {
        return;
      }
      match state {
        case Global => StateGlobal(token);
        case Subprogram => SubprogramState(token);
        case SubprogramName => SubprogramNameState(token);
        case ExpectParams => ExpectSubprogramParams(token);
        case Params => SubprogramParams(token);
        case Defn => SubprogramDefn(token);
        case Decl => SubprogramDecl(token);
        case BeginSubprogram => BeginSubprogramState(token);
        case IgnoreNext => IgnoreNextState(token);
        case Begin => BeginState(token);
        case Else => ElseState(token);
        case Then => ThenState(token);
        case Package => PackageState(token);
        case TaskName => TaskNameState(token);
        case TaskBody => TaskBodyState(token);
        case Task => TaskState(token);
        case End => EndState(token);
      }
      lastToken := Some(token);
    }

    /** `next(s, token)`. */
    method Next(s: State, token: string)
      modifies this, context
      decreases Rank(s), 4
      ensures Model() == Step(old(Model()).(state := s), token)
    {
      state := s;
      Feed(token);
    }

    /** `reset_state(token)`. */
    method ResetState(token: Option<string>)
      modifies this, context
      decreases if token.Some? then Rank(Global) else 0, if token.Some? then 3 else 0
      ensures token.None? ==> Model() == Reset(old(Model()))
      ensures token.Some? ==> Model() == Dispatch(Reset(old(Model())), token.value)
    {
      state := Global;
      if token.Some? {
        StateGlobal(token.value);
      }
    }

    method StateGlobal(token: string)
      requires state == Global
      modifies this, context
      decreases Rank(Global), 2
      ensures Model() == Dispatch(old(Model()), token)
    {
      var lower := Lower(token);
      if lower in SubprogramTokens {
        state := Subprogram;
      } else if lower in NestingKeywords {
        state := Then;
      } else if lower == "end" {
        state := End;
      } else if lower in PackageTokens {
        state := Package;
      } else if lower == "begin" {
        state := Begin;
      } else if lower in ElseKeywords {
        Next(Else, token);
      } else if lower == "task" {
        state := Task;
      } else if lower == ";" {
        ResetState(None);
      }
    }

    method SubprogramState(token: string)
      requires state == Subprogram
      modifies this, context
      decreases Rank(Subprogram), 2
      ensures Model() == Dispatch(old(Model()), token)
    {
      Next(SubprogramName, token);
    }

    method SubprogramNameState(token: string)
      requires state == SubprogramName
      modifies this, context
      ensures Model() == Dispatch(old(Model()), token)
    {
      context.PushNewFunction(token);
      state := ExpectParams;
    }

    method ExpectSubprogramParams(token: string)
      requires state == ExpectParams
      modifies this, context
      decreases Rank(ExpectParams), 2
      ensures Model() == Dispatch(old(Model()), token)
    {
      if token == "(" {
        Next(Params, token);
      } else {
        Next(Defn, token);
      }
    }

    method SubprogramDefn(token: string)
      requires state == Defn
      modifies this, context
      decreases Rank(Defn), 2
      ensures Model() == Dispatch(old(Model()), token)
    {
      if token == "with" || token == "return" {
      } else if token == "is" {
        Next(Decl, token);
      } else if token == ";" {
        context.EndOfFunction();
        ResetState(Some(token));
      }
    }

    method SubprogramDecl(token: string)
      requires state == Decl
      modifies this, context
      decreases Rank(Decl), 2
      ensures Model() == Dispatch(old(Model()), token)
    {
      if token == "begin" {
        Next(BeginSubprogram, token);
      } else if token == "end" {
        Next(End, token);
      } else if token in SubprogramTokens {
        nestedFunctions := nestedFunctions + 1;
        state := Subprogram;
      }
    }

    /** `_subprogram_params` under the bracket reader: tracks the depth of
      `(` and `)`, switches to the definition state at the matching `)`, and
      gives every token of the region to the context as a parameter. */
    method SubprogramParams(token: string)
      requires state == Params
      modifies this, context
      ensures Model() == Dispatch(old(Model()), token)
    {
      if token == "(" {
        brCount := brCount + 1;
      } else if token == ")" {
        brCount := brCount - 1;
      }
      if brCount == 0 {
        state := Defn;
      }
      context.Parameter(token);
    }

    method IgnoreNextState(token: string)
      requires state == IgnoreNext
      modifies this, context
      decreases Rank(IgnoreNext), 2
      ensures Model() == Dispatch(old(Model()), token)
    {
      ResetState(None);
    }

    method BeginSubprogramState(token: string)
      requires state == BeginSubprogram
      modifies this, context
      decreases Rank(BeginSubprogram), 2
      ensures Model() == Dispatch(old(Model()), token)
    {
      ResetState(None);
    }

    method BeginState(token: string)
      requires state == Begin
      modifies this, context
      decreases Rank(Begin), 2
      ensures Model() == Dispatch(old(Model()), token)
    {
      context.AddBareNesting();
      ResetState(None);
    }

    method ElseState(token: string)
      requires state == Else
      modifies this, context
      decreases Rank(Else), 2
      ensures Model() == Dispatch(old(Model()), token)
    {
      if token == "elsif" {
        PopBareNestingState();
      } else {
        ResetState(None);
      }
    }

    method ThenState(token: string)
      requires state == Then
      modifies this, context
      decreases Rank(Then), 2
      ensures Model() == Dispatch(old(Model()), token)
    {
      context.AddBareNesting();
      ResetState(None);
    }

    method PackageState(token: string)
      requires state == Package
      modifies this, context
      decreases Rank(Package), 2
      ensures Model() == Dispatch(old(Model()), token)
    {
      if token == "body" {
      } else if token == "is" {
        context.AddBareNesting();
        ResetState(None);
      } else {
        context.AddNamespace(token);
      }
    }

    method TaskNameState(token: string)
      requires state == TaskName
      modifies this, context
      decreases Rank(TaskName), 2
      ensures Model() == Dispatch(old(Model()), token)
    {
      context.PushNewFunction(token);
      Next(TaskBody, token);
    }

    method TaskBodyState(token: string)
      requires state == TaskBody
      modifies this, context
      decreases Rank(TaskBody), 2
      ensures Model() == Dispatch(old(Model()), token)
    {
      if token == "body" {
        state := TaskName;
      } else if token == "begin" {
        Next(BeginSubprogram, token);
      }
    }

    method TaskState(token: string)
      requires state == Task
      modifies this, context
      decreases Rank(Task), 2
      ensures Model() == Dispatch(old(Model()), token)
    {
      if token == "body" {
        Next(TaskBody, token);
      } else {
        ResetState(None);
      }
    }

    method EndState(token: string)
      requires state == End
      modifies this, context
      decreases Rank(End), 2
      ensures Model() == Dispatch(old(Model()), token)
    {
      if token in TrivialEndKeywords {
        PopBareNestingState();
      } else {
        PopFunctionIfExistsState();
      }
    }

    /** `_pop_bare_nesting`. */
    method PopBareNestingState()
      modifies this, context
      decreases 0, 1
      ensures Model() == PopBareNesting(old(Model()))
    {
      if context.nestingStack != [] {
        context.PopNesting();
      }
      ResetState(None);
    }

    /** `_pop_function_if_exists`. */
    method PopFunctionIfExistsState()
      modifies this, context
      decreases 0, 1
      ensures Model() == PopFunctionIfExists(old(Model()))
    {
      if context.CurrentNestingLevel() == 0 {
        context.EndOfFunction();
        if nestedFunctions > 0 {
          nestedFunctions := nestedFunctions - 1;
          state := Decl;
          return;
        }
      } else {
        context.PopNesting();
      }
      ResetState(None);
    }
  }
}
