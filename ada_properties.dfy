/** What the Ada state machine guarantees, stated over its specification
    `Step` and proved for every token stream. */
module AdaProperties {
  import opened Wrappers
  import opened AdaReader
  import opened Context
  import opened AdaMachine

  /** `__call__` with macros enabled: the handler's result with the token
      recorded as the last one. */
  lemma StepUnfold(m: Machine, token: string)
    requires !m.macroDisabled
    ensures Step(m, token) == Dispatch(m, token).(lastToken := Some(token))
  {
  }

  /** The invariant the machine keeps: the count of pending local routines
      is never negative, and the bracket depth is positive exactly while the
      parameter list is being read. */
  predicate Valid(m: Machine) {
    m.nestedFunctions >= 0 && m.brCount >= 0 && (m.state == Params <==> m.brCount > 0)
  }

  lemma InitialValid(c: Ctx)
    ensures Valid(Initial(c))
  {
  }

  lemma {:induction false} DispatchKeepsValid(m: Machine, token: string)
    requires Valid(m) && !m.macroDisabled
    ensures Valid(Dispatch(m, token))
    decreases Rank(m.state), 2
  {
    match m.state {
      case Global =>
        if Lower(token) in ElseKeywords {
          StepKeepsValid(m.(state := Else), token);
        }
      case Subprogram =>
        StepKeepsValid(m.(state := SubprogramName), token);
      case ExpectParams =>
        if token == "(" {
          var inParams := m.(state := Params);
          assert Dispatch(inParams, token).brCount == 1;
        } else {
          StepKeepsValid(m.(state := Defn), token);
        }
      case Defn =>
        if token == "is" {
          StepKeepsValid(m.(state := Decl), token);
        } else if token == ";" {
          DispatchKeepsValid(Reset(m.(ctx := WithFunctionEnded(m.ctx))), token);
        }
      case Decl =>
        if token == "begin" {
          StepKeepsValid(m.(state := BeginSubprogram), token);
        } else if token == "end" {
          StepKeepsValid(m.(state := End), token);
        }
      case TaskName =>
        StepKeepsValid(m.(ctx := WithNewFunction(m.ctx, token), state := TaskBody), token);
      case TaskBody =>
        if token == "begin" {
          StepKeepsValid(m.(state := BeginSubprogram), token);
        }
      case Task =>
        if token == "body" {
          StepKeepsValid(m.(state := TaskBody), token);
        }
      case _ =>
    }
  }

  /** One token keeps the invariant. */
  lemma {:induction false} StepKeepsValid(m: Machine, token: string)
    requires Valid(m)
    ensures Valid(Step(m, token))
    decreases Rank(m.state), 3
  {
    if !m.macroDisabled {
      DispatchKeepsValid(m, token);
    }
  }

  /** Every token stream keeps the invariant. */
  lemma {:induction false} RunKeepsValid(m: Machine, tokens: seq<string>)
    requires Valid(m)
    ensures Valid(Run(m, tokens))
    decreases |tokens|
  {
    if tokens != [] {
      StepKeepsValid(m, tokens[0]);
      RunKeepsValid(Step(m, tokens[0]), tokens[1..]);
    }
  }

  /** From a fresh machine, whatever the input, the count of pending local
      routines never goes negative. */
  lemma NestedFunctionsNeverNegative(c: Ctx, tokens: seq<string>)
    ensures Run(Initial(c), tokens).nestedFunctions >= 0
  {
    RunKeepsValid(Initial(c), tokens);
  }

  // ---------------------------------------------------------------------
  // What one token can do to the context.

  /** One token finishes at most one function, the current one; opens or
      closes at most one bare marker; and adds at most one namespace, the
      token itself. */
  predicate OneTokenEffect(m: Machine, r: Machine, token: string) {
    && (r.ctx.functionList == m.ctx.functionList
        || r.ctx.functionList == m.ctx.functionList + [m.ctx.current])
    && |m.ctx.nestingStack| <= |r.ctx.nestingStack| + 1
    && |r.ctx.nestingStack| <= |m.ctx.nestingStack| + 1
    && (r.ctx.namespaces == m.ctx.namespaces || r.ctx.namespaces == m.ctx.namespaces + [token])
  }

  lemma {:induction false} DispatchEffect(m: Machine, token: string)
    requires !m.macroDisabled
    ensures OneTokenEffect(m, Dispatch(m, token), token)
    decreases Rank(m.state), 2
  {
    match m.state {
      case Global =>
        if Lower(token) in ElseKeywords {
          StepEffect(m.(state := Else), token);
        }
      case Subprogram =>
        StepEffect(m.(state := SubprogramName), token);
      case ExpectParams =>
        if token == "(" {
          StepEffect(m.(state := Params), token);
        } else {
          StepEffect(m.(state := Defn), token);
        }
      case Defn =>
        if token == "is" {
          StepEffect(m.(state := Decl), token);
        } else if token == ";" {
          var ended := Reset(m.(ctx := WithFunctionEnded(m.ctx)));
          GlobalSeesWord(ended, token);
          EndAppendsCurrent(m.ctx);
        }
      case Decl =>
        if token == "begin" {
          StepEffect(m.(state := BeginSubprogram), token);
        } else if token == "end" {
          StepEffect(m.(state := End), token);
        }
      case TaskName =>
        var named := m.(ctx := WithNewFunction(m.ctx, token), state := TaskBody);
        StepUnfold(named, token);
        if token == "begin" {
          StepUnfold(named.(state := BeginSubprogram), token);
        }
        assert Dispatch(m, token).ctx == named.ctx;
      case TaskBody =>
        if token == "begin" {
          StepEffect(m.(state := BeginSubprogram), token);
        }
      case Task =>
        if token == "body" {
          StepEffect(m.(state := TaskBody), token);
        }
      case End =>
        EndAppendsCurrent(m.ctx);
      case _ =>
    }
  }

  lemma {:induction false} StepEffect(m: Machine, token: string)
    ensures OneTokenEffect(m, Step(m, token), token)
    decreases Rank(m.state), 3
  {
    if !m.macroDisabled {
      DispatchEffect(m, token);
    }
  }

  /** The list of finished functions only grows, one function per token at
      most, so no token stream ever removes or reorders a recorded function. */
  lemma {:induction false} FunctionListGrows(m: Machine, tokens: seq<string>)
    ensures m.ctx.functionList <= Run(m, tokens).ctx.functionList
    ensures |Run(m, tokens).ctx.functionList| <= |m.ctx.functionList| + |tokens|
    decreases |tokens|
  {
    if tokens != [] {
      StepEffect(m, tokens[0]);
      FunctionListGrows(Step(m, tokens[0]), tokens[1..]);
    }
  }

  // ---------------------------------------------------------------------
  // Resolving `end` by depth.

  /** `end if`, `end loop` and `end case` close one bare block: a marker is
      popped if there is one, no function is finished, and the machine is
      back in the global state. */
  lemma EndOfBlock(m: Machine, token: string)
    requires m.state == End && !m.macroDisabled && token in TrivialEndKeywords
    ensures var r := Step(m, token);
      && r.state == Global
      && r.nestedFunctions == m.nestedFunctions
      && r.ctx.functionList == m.ctx.functionList
      && r.ctx.current == m.ctx.current
      && r.ctx.namespaces == m.ctx.namespaces
      && |r.ctx.nestingStack| == if m.ctx.nestingStack == [] then 0 else |m.ctx.nestingStack| - 1
  {
  }

  /** Any other word after `end` closes the current routine when no bare
      block is open, and then either resumes the enclosing routine's
      declarations (when a local routine was pending) or goes back to the
      global state; when a block is open it closes that block instead. */
  lemma EndOfRoutine(m: Machine, token: string)
    requires m.state == End && !m.macroDisabled && token !in TrivialEndKeywords
    ensures var r := Step(m, token);
      && r.ctx.namespaces == m.ctx.namespaces
      && if m.ctx.nestingStack == [] then
           && r.ctx == WithFunctionEnded(m.ctx)
           && r.ctx.functionList == m.ctx.functionList + [m.ctx.current]
           && r.ctx.nestingStack == []
           && (if m.nestedFunctions > 0
               then r.state == Decl && r.nestedFunctions == m.nestedFunctions - 1
               else r.state == Global && r.nestedFunctions == m.nestedFunctions)
         else
           && r.ctx == WithoutTopNesting(m.ctx)
           && r.ctx.functionList == m.ctx.functionList
           && |r.ctx.nestingStack| == |m.ctx.nestingStack| - 1
           && r.state == Global
           && r.nestedFunctions == m.nestedFunctions
  {
    EndAppendsCurrent(m.ctx);
  }

  /** In a declarative part `end` is handed on to the `end` handler, which
      takes the word `end` itself as the word after it: the routine is
      closed at once (or a block, if one is open). */
  lemma EndInDeclarations(m: Machine)
    requires m.state == Decl && !m.macroDisabled
    ensures Step(m, "end") == Step(m.(state := End), "end")
    ensures "end" !in TrivialEndKeywords
  {
  }

  // ---------------------------------------------------------------------
  // Bare nesting in the global state.

  /** After `then`, `do`, `loop` or `begin` the next token, whatever it is,
      opens exactly one bare marker and is not itself dispatched: nothing
      else changes and the machine is back in the global state. */
  lemma OpenerAddsOneMarker(m: Machine, opener: string, next: string)
    requires m.state == Global && !m.macroDisabled
    requires Lower(opener) in NestingKeywords || Lower(opener) == "begin"
    ensures Step(Step(m, opener), next)
         == m.(ctx := WithBareNesting(m.ctx), lastToken := Some(next))
  {
  }

  /** The nesting stack after `_pop_bare_nesting`. */
  function Popped(s: seq<Nesting>): (r: seq<Nesting>) {
    if s == [] then [] else s[..|s| - 1]
  }

  /** In the global state a word without capitals is compared as it is. */
  lemma GlobalSeesWord(m: Machine, word: string)
    requires m.state == Global
    requires forall i :: 0 <= i < |word| ==> 'a' <= word[i] <= 'z' || word[i] == ';'
    ensures Lower(word) == word
    ensures word == ";" ==> Dispatch(m, word) == m
  {
    LowerUnchanged(word);
  }

  /** `elsif` closes the previous arm's block and nothing else. */
  lemma ElsifClosesArm(m: Machine)
    requires m.state == Global && !m.macroDisabled
    ensures Step(m, "elsif")
         == m.(ctx := m.ctx.(nestingStack := Popped(m.ctx.nestingStack)), lastToken := Some("elsif"))
  {
    GlobalSeesWord(m, "elsif");
    StepUnfold(m.(state := Else), "elsif");
  }

  /** `else` closes no block and changes nothing. */
  lemma ElseKeepsNesting(m: Machine)
    requires m.state == Global && !m.macroDisabled
    ensures Step(m, "else") == m.(lastToken := Some("else"))
  {
    GlobalSeesWord(m, "else");
    StepUnfold(m.(state := Else), "else");
  }

  // ---------------------------------------------------------------------
  // The definition part of a subprogram, before `is` or `;`.

  /** In the definition part `is` leads to the declarations, `;` finishes
      the current function and returns to the global state, and every other
      token (`with`, `return`, a type name, a contract) is ignored. */
  lemma DefinitionPart(m: Machine, token: string)
    requires m.state == Defn && !m.macroDisabled
    ensures token == "is" ==> Step(m, token) == m.(state := Decl, lastToken := Some(token))
    ensures token == ";" ==>
      Step(m, token) == m.(state := Global, ctx := WithFunctionEnded(m.ctx), lastToken := Some(token))
    ensures token != "is" && token != ";" ==> Step(m, token) == m.(lastToken := Some(token))
  {
    if token == "is" {
      StepUnfold(m.(state := Decl), token);
    } else if token == ";" {
      var ended := Reset(m.(ctx := WithFunctionEnded(m.ctx)));
      assert Dispatch(m, token) == Dispatch(ended, token);
      GlobalSeesWord(ended, token);
    }
  }

  // ---------------------------------------------------------------------
  // Packages.

  /** After `package`: `body` is ignored, `is` opens one bare marker and
      returns to the global state, and any other token is added as a
      namespace. */
  lemma PackageHeader(m: Machine, token: string)
    requires m.state == Package && !m.macroDisabled
    ensures token == "body" ==> Step(m, token) == m.(lastToken := Some(token))
    ensures token == "is" ==>
      Step(m, token) == m.(state := Global, ctx := WithBareNesting(m.ctx), lastToken := Some(token))
    ensures token != "body" && token != "is" ==>
      Step(m, token) == m.(ctx := WithNamespace(m.ctx, token), lastToken := Some(token))
  {
  }

  // ---------------------------------------------------------------------
  // Token streams.

  lemma {:induction false} RunAppend(m: Machine, a: seq<string>, b: seq<string>)
    ensures Run(m, a + b) == Run(Run(m, a), b)
    decreases |a|
  {
    if a == [] {
      assert a + b == b;
    } else {
      assert (a + b)[0] == a[0];
      assert (a + b)[1..] == a[1..] + b;
      RunAppend(Step(m, a[0]), a[1..], b);
    }
  }

  lemma RunCons(m: Machine, token: string, rest: seq<string>)
    ensures Run(m, [token] + rest) == Run(Step(m, token), rest)
  {
    assert ([token] + rest)[1..] == rest;
  }

  lemma RunOne(m: Machine, token: string)
    ensures Run(m, [token]) == Step(m, token)
  {
    RunCons(m, token, []);
  }

  /** A token the global state ignores: an identifier, an operator, `;`, a
      keyword other than the ones the global state reacts to. */
  predicate Inert(token: string) {
    var lower := Lower(token);
    && lower !in SubprogramTokens && lower !in NestingKeywords && lower != "end"
    && lower !in PackageTokens && lower != "begin" && lower !in ElseKeywords && lower != "task"
  }

  /** The global state ignores an inert token. */
  lemma InertStep(m: Machine, token: string)
    requires m.state == Global && !m.macroDisabled && Inert(token)
    ensures Step(m, token) == m.(lastToken := Some(token))
  {
  }

  /** The global state ignores a stream of inert tokens. */
  lemma {:induction false} InertRun(m: Machine, tokens: seq<string>)
    requires m.state == Global && !m.macroDisabled
    requires forall i :: 0 <= i < |tokens| ==> Inert(tokens[i])
    ensures Run(m, tokens) == if tokens == [] then m else m.(lastToken := Some(tokens[|tokens| - 1]))
    decreases |tokens|
  {
    if tokens != [] {
      InertStep(m, tokens[0]);
      InertRun(Step(m, tokens[0]), tokens[1..]);
    }
  }

  // ---------------------------------------------------------------------
  // `if c then s; elsif d then s; … else s; end if;`

  /** Tokens the global state ignores, one after another. */
  predicate AllInert(tokens: seq<string>) {
    forall i :: 0 <= i < |tokens| ==> Inert(tokens[i])
  }

  /** The rest of a statement sequence after its first token: ignored by
      the global state, and ending in `;`. */
  predicate StatementTail(tail: seq<string>) {
    tail != [] && tail[|tail| - 1] == ";" && AllInert(tail)
  }

  /** A plain statement sequence ends with `;` as the last token. */
  lemma StatementTailRun(m: Machine, tail: seq<string>)
    requires m.state == Global && !m.macroDisabled && StatementTail(tail)
    ensures Run(m, tail) == m.(lastToken := Some(";"))
  {
    InertRun(m, tail);
  }

  /** `c then s …;` in the global state opens one bare marker: the
      condition is ignored, and the arm's first token, whatever it is, is
      taken by `then`. */
  lemma ThenArm(m: Machine, cond: seq<string>, first: string, tail: seq<string>)
    requires m.state == Global && !m.macroDisabled && AllInert(cond) && StatementTail(tail)
    ensures Run(m, cond + (["then"] + ([first] + tail)))
         == m.(ctx := WithBareNesting(m.ctx), lastToken := Some(";"))
  {
    LowerUnchanged("then");
    InertRun(m, cond);
    var m1 := Run(m, cond);
    OpenerAddsOneMarker(m1, "then", first);
    var m2 := Step(m1, "then");
    var m3 := Step(m2, first);
    StatementTailRun(m3, tail);
    RunAppend(m, cond, ["then"] + ([first] + tail));
    RunCons(m1, "then", [first] + tail);
    RunCons(m2, first, tail);
  }

  /** `if c then s …;` opens one bare marker. */
  lemma IfArm(m: Machine, cond: seq<string>, first: string, tail: seq<string>)
    requires m.state == Global && !m.macroDisabled && AllInert(cond) && StatementTail(tail)
    ensures Run(m, ["if"] + (cond + (["then"] + ([first] + tail))))
         == m.(ctx := WithBareNesting(m.ctx), lastToken := Some(";"))
  {
    LowerUnchanged("if");
    InertStep(m, "if");
    RunCons(m, "if", cond + (["then"] + ([first] + tail)));
    ThenArm(Step(m, "if"), cond, first, tail);
  }

  /** Popping a marker and pushing one leaves a non-empty stack as it was. */
  lemma PopPush(s: seq<Nesting>)
    requires s != []
    ensures Popped(s) + [BareNesting] == s
  {
    assert s[|s| - 1] == BareNesting;
  }

  /** `elsif c then s …;` closes the previous arm's marker and opens its
      own: the depth is unchanged. */
  lemma ElsifArm(m: Machine, cond: seq<string>, first: string, tail: seq<string>)
    requires m.state == Global && !m.macroDisabled && AllInert(cond) && StatementTail(tail)
    requires m.ctx.nestingStack != []
    ensures Run(m, ["elsif"] + (cond + (["then"] + ([first] + tail)))) == m.(lastToken := Some(";"))
  {
    ElsifClosesArm(m);
    RunCons(m, "elsif", cond + (["then"] + ([first] + tail)));
    ThenArm(Step(m, "elsif"), cond, first, tail);
    PopPush(m.ctx.nestingStack);
  }

  /** The `elsif` arms of an `if` statement, with conditions `conds`, first
      tokens `firsts` and the rests `tails`. */
  function ElsifArms(conds: seq<seq<string>>, firsts: seq<string>, tails: seq<seq<string>>): (r: seq<string>)
    requires |conds| == |firsts| == |tails|
    decreases |conds|
  {
    if conds == [] then []
    else (["elsif"] + (conds[0] + (["then"] + ([firsts[0]] + tails[0]))))
         + ElsifArms(conds[1..], firsts[1..], tails[1..])
  }

  /** Any number of `elsif` arms leave the depth unchanged. */
  lemma {:induction false} ElsifArmsKeepDepth(m: Machine, conds: seq<seq<string>>, firsts: seq<string>,
                                               tails: seq<seq<string>>)
    requires m.state == Global && !m.macroDisabled && m.ctx.nestingStack != []
    requires |conds| == |firsts| == |tails|
    requires forall i :: 0 <= i < |conds| ==> AllInert(conds[i])
    requires forall i :: 0 <= i < |tails| ==> StatementTail(tails[i])
    ensures Run(m, ElsifArms(conds, firsts, tails)) == if conds == [] then m else m.(lastToken := Some(";"))
    decreases |conds|
  {
    if conds != [] {
      var arm := ["elsif"] + (conds[0] + (["then"] + ([firsts[0]] + tails[0])));
      ElsifArm(m, conds[0], firsts[0], tails[0]);
      var m1 := Run(m, arm);
      ElsifArmsKeepDepth(m1, conds[1..], firsts[1..], tails[1..]);
      RunAppend(m, arm, ElsifArms(conds[1..], firsts[1..], tails[1..]));
    }
  }

  /** The `else` arm, absent when `stmts` is empty. */
  function ElsePart(stmts: seq<string>): (r: seq<string>) {
    if stmts == [] then [] else ["else"] + stmts
  }

  /** `else s …;` changes nothing. */
  lemma ElseArm(m: Machine, stmts: seq<string>)
    requires m.state == Global && !m.macroDisabled
    requires stmts == [] || StatementTail(stmts)
    ensures Run(m, ElsePart(stmts)) == if stmts == [] then m else m.(lastToken := Some(";"))
  {
    if stmts != [] {
      ElseKeepsNesting(m);
      RunCons(m, "else", stmts);
      StatementTailRun(Step(m, "else"), stmts);
    }
  }

  /** `end if;` closes one marker and finishes no function. */
  lemma EndIf(m: Machine)
    requires m.state == Global && !m.macroDisabled
    ensures Run(m, ["end", "if", ";"])
         == m.(ctx := m.ctx.(nestingStack := Popped(m.ctx.nestingStack)), lastToken := Some(";"))
  {
    GlobalSeesWord(m, "end");
    var m1 := Step(m, "end");
    assert m1 == m.(state := End, lastToken := Some("end"));
    var m2 := Step(m1, "if");
    assert "if" in TrivialEndKeywords;
    assert Dispatch(m1, "if") == PopBareNesting(m1);
    assert m2 == m.(ctx := m.ctx.(nestingStack := Popped(m.ctx.nestingStack)), lastToken := Some("if"));
    LowerUnchanged(";");
    InertStep(m2, ";");
    RunCons(m, "end", ["if", ";"]);
    RunCons(m1, "if", [";"]);
    RunOne(m2, ";");
  }

  /** A whole `if` statement, whatever its number of `elsif` arms and
      whether or not it has an `else` arm, leaves the machine as it found
      it: the nesting depth is restored and no function is finished. */
  lemma IfStatement(m: Machine, cond: seq<string>, first: string, tail: seq<string>,
                    conds: seq<seq<string>>, firsts: seq<string>, tails: seq<seq<string>>,
                    elseStmts: seq<string>)
    requires m.state == Global && !m.macroDisabled
    requires AllInert(cond) && StatementTail(tail)
    requires |conds| == |firsts| == |tails|
    requires forall i :: 0 <= i < |conds| ==> AllInert(conds[i])
    requires forall i :: 0 <= i < |tails| ==> StatementTail(tails[i])
    requires elseStmts == [] || StatementTail(elseStmts)
    ensures Run(m, (["if"] + (cond + (["then"] + ([first] + tail))))
                   + (ElsifArms(conds, firsts, tails) + (ElsePart(elseStmts) + ["end", "if", ";"])))
         == m.(lastToken := Some(";"))
  {
    var a := ["if"] + (cond + (["then"] + ([first] + tail)));
    var b := ElsifArms(conds, firsts, tails);
    var c := ElsePart(elseStmts);
    var d := ["end", "if", ";"];
    IfArm(m, cond, first, tail);
    var ma := Run(m, a);
    ElsifArmsKeepDepth(ma, conds, firsts, tails);
    assert Run(ma, b) == ma;
    ElseArm(ma, elseStmts);
    assert Run(ma, c) == ma;
    EndIf(ma);
    assert Popped(m.ctx.nestingStack + [BareNesting]) == m.ctx.nestingStack;
    RunAppend(m, a, b + (c + d));
    RunAppend(ma, b, c + d);
    RunAppend(ma, c, d);
  }

  // ---------------------------------------------------------------------
  // Subprograms.

  /** The name after `function` or `procedure` starts a new function with
      no parameters, and the parameter list or definition is expected. */
  lemma SubprogramNamed(m: Machine, name: string)
    requires m.state == Subprogram && !m.macroDisabled
    ensures Step(m, name)
         == m.(state := ExpectParams, ctx := WithNewFunction(m.ctx, name), lastToken := Some(name))
  {
    StepUnfold(m.(state := SubprogramName), name);
  }

  /** `procedure P` or `function F` in the global state, whatever the case
      of the keyword. */
  lemma Header(m: Machine, kind: string, name: string)
    requires m.state == Global && !m.macroDisabled && Lower(kind) in SubprogramTokens
    ensures Run(m, [kind, name])
         == m.(state := ExpectParams, ctx := WithNewFunction(m.ctx, name), lastToken := Some(name))
  {
    var m1 := Step(m, kind);
    StepUnfold(m, kind);
    assert m1 == m.(state := Subprogram, lastToken := Some(kind));
    SubprogramNamed(m1, name);
    RunCons(m, kind, [name]);
    RunOne(m1, name);
  }

  /** Without a parameter list the token after the name goes to the
      definition part. */
  lemma NoParameterList(m: Machine, token: string)
    requires m.state == ExpectParams && !m.macroDisabled && token != "("
    ensures Step(m, token) == Step(m.(state := Defn), token)
  {
  }

  /** A declaration without a body or parameter list (`procedure P;`)
      records exactly one finished function with no parameters and changes
      nothing else. */
  lemma DeclarationWithoutBody(m: Machine, kind: string, name: string)
    requires m.state == Global && !m.macroDisabled && Lower(kind) in SubprogramTokens
    ensures Run(m, [kind, name, ";"])
         == m.(ctx := m.ctx.(functionList := m.ctx.functionList + [FunctionInfo(name, [])]),
               lastToken := Some(";"))
  {
    Header(m, kind, name);
    var m2 := Run(m, [kind, name]);
    NoParameterList(m2, ";");
    DefinitionPart(m2.(state := Defn), ";");
    EndUndoesPush(m.ctx, name);
    assert [kind, name, ";"] == [kind, name] + [";"];
    RunAppend(m, [kind, name], [";"]);
    RunOne(m2, ";");
  }

  /** A declaration without a parameter list whose definition part ends in
      `;` (`procedure Print renames Message.Print;`, `function F return T;`,
      an aspect after `with`) records exactly one finished function with no
      parameters and changes nothing else. */
  lemma DeclarationWithSpec(m: Machine, kind: string, name: string, spec: seq<string>)
    requires m.state == Global && !m.macroDisabled && Lower(kind) in SubprogramTokens
    requires spec != [] ==> spec[0] != "("
    requires forall i :: 0 <= i < |spec| ==> spec[i] != "is" && spec[i] != ";"
    ensures Run(m, [kind, name] + spec + [";"])
         == m.(ctx := m.ctx.(functionList := m.ctx.functionList + [FunctionInfo(name, [])]),
               lastToken := Some(";"))
  {
    var rest := spec + [";"];
    assert [kind, name] + spec + [";"] == [kind, name] + rest;
    Header(m, kind, name);
    var m2 := Run(m, [kind, name]);
    var d := m2.(state := Defn);
    NoParameterList(m2, rest[0]);
    assert rest == [rest[0]] + rest[1..];
    RunCons(m2, rest[0], rest[1..]);
    RunCons(d, rest[0], rest[1..]);
    DefinitionEnds(d, spec);
    EndUndoesPush(m.ctx, name);
    RunAppend(m, [kind, name], rest);
  }

  /** `is` after the name (or the parameter list) opens the declarative part. */
  lemma IsOpensDeclarations(m: Machine)
    requires m.state == ExpectParams && !m.macroDisabled
    ensures Step(m, "is") == m.(state := Decl, lastToken := Some("is"))
  {
    NoParameterList(m, "is");
    DefinitionPart(m.(state := Defn), "is");
  }

  /** `begin` ends the declarative part: the statements are read in the
      global state. */
  lemma BeginEndsDeclarations(m: Machine)
    requires m.state == Decl && !m.macroDisabled
    ensures Step(m, "begin") == m.(state := Global, lastToken := Some("begin"))
  {
    StepUnfold(m.(state := BeginSubprogram), "begin");
  }

  /** A local `function` or `procedure` in a declarative part (the keyword
      as written, in lower case) is counted as pending. */
  lemma LocalSubprogramStarts(m: Machine, kind: string)
    requires m.state == Decl && !m.macroDisabled && kind in SubprogramTokens
    ensures Step(m, kind)
         == m.(state := Subprogram, nestedFunctions := m.nestedFunctions + 1, lastToken := Some(kind))
  {
  }

  /** `end N;` with no bare block open finishes the current function; when a
      local routine was pending the enclosing routine's declarative part is
      resumed, otherwise the machine is back in the global state. */
  lemma CloseRoutine(m: Machine, endName: string)
    requires m.state == Global && !m.macroDisabled
    requires m.ctx.nestingStack == [] && endName !in TrivialEndKeywords
    ensures Run(m, ["end", endName, ";"])
         == if m.nestedFunctions > 0
            then m.(state := Decl, nestedFunctions := m.nestedFunctions - 1,
                    ctx := WithFunctionEnded(m.ctx), lastToken := Some(";"))
            else m.(ctx := WithFunctionEnded(m.ctx), lastToken := Some(";"))
  {
    GlobalSeesWord(m, "end");
    var m1 := Step(m, "end");
    assert m1 == m.(state := End, lastToken := Some("end"));
    var m2 := Step(m1, endName);
    EndOfRoutine(m1, endName);
    EndAppendsCurrent(m.ctx);
    if m.nestedFunctions > 0 {
      assert m2 == m.(state := Decl, nestedFunctions := m.nestedFunctions - 1,
                      ctx := WithFunctionEnded(m.ctx), lastToken := Some(endName));
    } else {
      assert m2 == m.(ctx := WithFunctionEnded(m.ctx), lastToken := Some(endName));
      GlobalSeesWord(m2, ";");
    }
    RunCons(m, "end", [endName, ";"]);
    RunCons(m1, endName, [";"]);
    RunOne(m2, ";");
  }

  /** `procedure P is` in the global state opens the declarative part of a
      new function. */
  lemma DeclarationsOpen(m: Machine, kind: string, name: string)
    requires m.state == Global && !m.macroDisabled && Lower(kind) in SubprogramTokens
    ensures Run(m, [kind, name, "is"])
         == m.(state := Decl, ctx := WithNewFunction(m.ctx, name), lastToken := Some("is"))
  {
    Header(m, kind, name);
    var m2 := Run(m, [kind, name]);
    IsOpensDeclarations(m2);
    assert [kind, name, "is"] == [kind, name] + ["is"];
    RunAppend(m, [kind, name], ["is"]);
    RunOne(m2, "is");
  }

  /** `begin`, plain statements and `end N;` after a declarative part, with
      no bare block open, finish the current function. */
  lemma BodyCloses(m: Machine, body: seq<string>, endName: string)
    requires m.state == Decl && !m.macroDisabled && m.ctx.nestingStack == []
    requires forall i :: 0 <= i < |body| ==> Inert(body[i])
    requires endName !in TrivialEndKeywords
    ensures Run(m, ["begin"] + body + ["end", endName, ";"])
         == if m.nestedFunctions > 0
            then m.(nestedFunctions := m.nestedFunctions - 1,
                    ctx := WithFunctionEnded(m.ctx), lastToken := Some(";"))
            else m.(state := Global, ctx := WithFunctionEnded(m.ctx), lastToken := Some(";"))
  {
    var tail := ["end", endName, ";"];
    assert ["begin"] + body + tail == ["begin"] + (body + tail);
    BeginEndsDeclarations(m);
    var m1 := Step(m, "begin");
    InertRun(m1, body);
    CloseRoutine(Run(m1, body), endName);
    RunCons(m, "begin", body + tail);
    RunAppend(m1, body, tail);
  }

  /** A routine with a body of plain statements, at the outermost level,
      records exactly one finished function and leaves the machine as it
      found it. */
  lemma RoutineWithBody(m: Machine, kind: string, name: string, body: seq<string>, endName: string)
    requires m.state == Global && !m.macroDisabled && Lower(kind) in SubprogramTokens
    requires m.ctx.nestingStack == [] && m.nestedFunctions == 0
    requires forall i :: 0 <= i < |body| ==> Inert(body[i])
    requires endName !in TrivialEndKeywords
    ensures Run(m, [kind, name, "is", "begin"] + body + ["end", endName, ";"])
         == m.(ctx := m.ctx.(functionList := m.ctx.functionList + [FunctionInfo(name, [])]),
               lastToken := Some(";"))
  {
    var rest := ["begin"] + body + ["end", endName, ";"];
    assert [kind, name, "is", "begin"] + body + ["end", endName, ";"] == [kind, name, "is"] + rest;
    DeclarationsOpen(m, kind, name);
    BodyCloses(Run(m, [kind, name, "is"]), body, endName);
    EndUndoesPush(m.ctx, name);
    RunAppend(m, [kind, name, "is"], rest);
  }

  /** A local routine with a body of plain statements, in a declarative
      part, is recorded as finished, and the enclosing declarative part
      resumes with the enclosing routine current again. */
  lemma LocalRoutine(m: Machine, kind: string, name: string, body: seq<string>, endName: string)
    requires m.state == Decl && !m.macroDisabled && kind in SubprogramTokens
    requires m.ctx.nestingStack == [] && m.nestedFunctions >= 0
    requires forall i :: 0 <= i < |body| ==> Inert(body[i])
    requires endName !in TrivialEndKeywords
    ensures Run(m, [kind, name, "is", "begin"] + body + ["end", endName, ";"])
         == m.(ctx := m.ctx.(functionList := m.ctx.functionList + [FunctionInfo(name, [])]),
               lastToken := Some(";"))
  {
    var rest := ["begin"] + body + ["end", endName, ";"];
    assert [kind, name, "is", "begin"] + body + ["end", endName, ";"]
        == [kind] + ([name] + (["is"] + rest));
    LocalSubprogramStarts(m, kind);
    var m1 := Step(m, kind);
    SubprogramNamed(m1, name);
    var m2 := Step(m1, name);
    IsOpensDeclarations(m2);
    var m3 := Step(m2, "is");
    BodyCloses(m3, body, endName);
    EndUndoesPush(m.ctx, name);
    RunCons(m, kind, [name] + (["is"] + rest));
    RunCons(m1, name, ["is"] + rest);
    RunCons(m2, "is", rest);
  }

  /** A routine with one local routine in its declarative part records the
      local routine first and the enclosing one second, and leaves the
      machine as it found it. */
  lemma RoutineWithLocalRoutine(m: Machine, kind: string, outer: string, local: string,
                                inner: seq<string>, body: seq<string>)
    requires m.state == Global && !m.macroDisabled && Lower(kind) in SubprogramTokens
    requires m.ctx.nestingStack == [] && m.nestedFunctions == 0
    requires forall i :: 0 <= i < |inner| ==> Inert(inner[i])
    requires forall i :: 0 <= i < |body| ==> Inert(body[i])
    requires outer !in TrivialEndKeywords && local !in TrivialEndKeywords
    ensures Run(m, [kind, outer, "is"]
                   + (["procedure", local, "is", "begin"] + inner + ["end", local, ";"])
                   + (["begin"] + body + ["end", outer, ";"]))
         == m.(ctx := m.ctx.(functionList := m.ctx.functionList
                               + [FunctionInfo(local, []), FunctionInfo(outer, [])]),
               lastToken := Some(";"))
  {
    var head := [kind, outer, "is"];
    var localPart := ["procedure", local, "is", "begin"] + inner + ["end", local, ";"];
    var rest := ["begin"] + body + ["end", outer, ";"];
    assert head + localPart + rest == head + (localPart + rest);
    DeclarationsOpen(m, kind, outer);
    var m1 := Run(m, head);
    LocalRoutine(m1, "procedure", local, inner, local);
    var m2 := Run(m1, localPart);
    var c1 := m.ctx.(functionList := m.ctx.functionList + [FunctionInfo(local, [])]);
    assert m2 == m.(state := Decl, ctx := WithNewFunction(c1, outer), lastToken := Some(";"));
    BodyCloses(m2, body, outer);
    EndUndoesPush(c1, outer);
    RunAppend(m, head, localPart + rest);
    RunAppend(m1, localPart, rest);
  }

  // ---------------------------------------------------------------------
  // Parameter lists.

  /** How a token changes the bracket depth. */
  function BracketDelta(token: string): (r: int) {
    if token == "(" then 1 else if token == ")" then -1 else 0
  }

  /** Starting at bracket depth `depth`, the depth stays positive until the
      last token, which closes the outermost bracket. */
  predicate ClosesAtEnd(depth: int, tokens: seq<string>)
    decreases |tokens|
  {
    && tokens != []
    && var d := depth + BracketDelta(tokens[0]);
       if |tokens| == 1 then d == 0 else d > 0 && ClosesAtEnd(d, tokens[1..])
  }

  /** Inside the parameter brackets every token, both brackets included,
      is given to the current function, and the token that closes the
      outermost bracket leads to the definition part. */
  lemma {:induction false} ParamsRun(m: Machine, tokens: seq<string>)
    requires m.state == Params && !m.macroDisabled && ClosesAtEnd(m.brCount, tokens)
    ensures Run(m, tokens)
         == m.(state := Defn, brCount := 0,
               ctx := m.ctx.(current := m.ctx.current.(parameters := m.ctx.current.parameters + tokens)),
               lastToken := Some(tokens[|tokens| - 1]))
    decreases |tokens|
  {
    var t := tokens[0];
    var m1 := Step(m, t);
    var c := m.ctx.(current := m.ctx.current.(parameters := m.ctx.current.parameters + [t]));
    StepUnfold(m, t);
    var br := m.brCount + BracketDelta(t);
    assert Dispatch(m, t).brCount == br;
    assert Dispatch(m, t).ctx == c;
    if |tokens| == 1 {
      assert br == 0;
      assert m1 == m.(state := Defn, brCount := 0, ctx := c, lastToken := Some(t));
      assert tokens == [t];
      RunOne(m, t);
    } else {
      assert br > 0;
      assert m1 == m.(brCount := m.brCount + BracketDelta(t), ctx := c, lastToken := Some(t));
      ParamsRun(m1, tokens[1..]);
      assert c.current.parameters + tokens[1..] == m.ctx.current.parameters + tokens;
      assert tokens[1..][|tokens[1..]| - 1] == tokens[|tokens| - 1];
    }
  }

  /** A parameter list after the subprogram name: its tokens, brackets
      included, become the current function's parameters, and the
      definition part follows. */
  lemma ParameterList(m: Machine, tokens: seq<string>)
    requires m.state == ExpectParams && !m.macroDisabled
    requires tokens != [] && tokens[0] == "(" && ClosesAtEnd(m.brCount, tokens)
    ensures Run(m, tokens)
         == m.(state := Defn, brCount := 0,
               ctx := m.ctx.(current := m.ctx.current.(parameters := m.ctx.current.parameters + tokens)),
               lastToken := Some(tokens[|tokens| - 1]))
  {
    var p := m.(state := Params);
    assert Step(m, "(") == Step(p, "(");
    assert tokens == [tokens[0]] + tokens[1..];
    RunCons(m, "(", tokens[1..]);
    RunCons(p, "(", tokens[1..]);
    ParamsRun(p, tokens);
  }

  /** A parameter list without nested brackets is closed by its `)`. */
  lemma {:induction false} FlatListCloses(depth: int, inner: seq<string>)
    requires depth > 0
    requires forall i :: 0 <= i < |inner| ==> inner[i] != "(" && inner[i] != ")"
    ensures ClosesAtEnd(depth, inner + [")"]) <==> depth == 1
    decreases |inner|
  {
    if inner == [] {
      assert inner + [")"] == [")"];
    } else {
      assert (inner + [")"])[1..] == inner[1..] + [")"];
      FlatListCloses(depth, inner[1..]);
    }
  }

  /** In the definition part a stream of tokens other than `is` and `;`
      (a result type after `return`, an aspect after `with`) is ignored. */
  lemma {:induction false} DefinitionTokens(m: Machine, tokens: seq<string>)
    requires m.state == Defn && !m.macroDisabled
    requires forall i :: 0 <= i < |tokens| ==> tokens[i] != "is" && tokens[i] != ";"
    ensures Run(m, tokens) == if tokens == [] then m else m.(lastToken := Some(tokens[|tokens| - 1]))
    decreases |tokens|
  {
    if tokens != [] {
      DefinitionPart(m, tokens[0]);
      DefinitionTokens(Step(m, tokens[0]), tokens[1..]);
    }
  }

  /** `;` after the definition part finishes the current function. */
  lemma DefinitionEnds(m: Machine, spec: seq<string>)
    requires m.state == Defn && !m.macroDisabled
    requires forall i :: 0 <= i < |spec| ==> spec[i] != "is" && spec[i] != ";"
    ensures Run(m, spec + [";"])
         == m.(state := Global, ctx := WithFunctionEnded(m.ctx), lastToken := Some(";"))
  {
    DefinitionTokens(m, spec);
    var m1 := Run(m, spec);
    DefinitionPart(m1, ";");
    RunAppend(m, spec, [";"]);
    RunOne(m1, ";");
  }

  /** `procedure P (…)` in the global state starts a function whose
      parameters are the tokens of the list. */
  lemma HeaderWithParameters(m: Machine, kind: string, name: string, params: seq<string>)
    requires m.state == Global && !m.macroDisabled && Lower(kind) in SubprogramTokens
    requires m.brCount == 0 && params != [] && params[0] == "(" && ClosesAtEnd(0, params)
    ensures var d := WithNewFunction(m.ctx, name);
      Run(m, [kind, name] + params)
      == m.(state := Defn, ctx := d.(current := FunctionInfo(name, params)),
            lastToken := Some(params[|params| - 1]))
  {
    Header(m, kind, name);
    var m1 := Run(m, [kind, name]);
    ParameterList(m1, params);
    assert m1.ctx.current.parameters + params == params;
    RunAppend(m, [kind, name], params);
  }

  /** Finishing a function right after the one it interrupted was
      suspended, whatever it collected, records it and restores the rest. */
  lemma EndRecordsFunction(c: Ctx, f: FunctionInfo, name: string)
    ensures WithFunctionEnded(WithNewFunction(c, name).(current := f))
         == c.(functionList := c.functionList + [f])
  {
    var d := WithNewFunction(c, name).(current := f);
    assert d.stacked[..|d.stacked| - 1] == c.stacked;
  }

  /** A subprogram declaration with a parameter list and no body records
      one finished function whose parameters are the tokens of the list. */
  lemma DeclarationWithParameters(m: Machine, kind: string, name: string,
                                  params: seq<string>, spec: seq<string>)
    requires m.state == Global && !m.macroDisabled && Lower(kind) in SubprogramTokens
    requires m.brCount == 0 && params != [] && params[0] == "(" && ClosesAtEnd(0, params)
    requires forall i :: 0 <= i < |spec| ==> spec[i] != "is" && spec[i] != ";"
    ensures Run(m, [kind, name] + params + spec + [";"])
         == m.(ctx := m.ctx.(functionList := m.ctx.functionList + [FunctionInfo(name, params)]),
               lastToken := Some(";"))
  {
    assert [kind, name] + params + spec + [";"] == ([kind, name] + params) + (spec + [";"]);
    HeaderWithParameters(m, kind, name, params);
    DefinitionEnds(Run(m, [kind, name] + params), spec);
    EndRecordsFunction(m.ctx, FunctionInfo(name, params), name);
    RunAppend(m, [kind, name] + params, spec + [";"]);
  }

  // ---------------------------------------------------------------------
  // Tasks.

  /** `task body T` starts a function named `T`; the task's declarations
      up to `begin` are ignored. */
  lemma TaskBodyOpens(m: Machine, name: string)
    requires m.state == Global && !m.macroDisabled && name != "body" && name != "begin"
    ensures Run(m, ["task", "body", name])
         == m.(state := TaskBody, ctx := WithNewFunction(m.ctx, name), lastToken := Some(name))
  {
    GlobalSeesWord(m, "task");
    StepUnfold(m, "task");
    var m1 := Step(m, "task");
    assert m1 == m.(state := Task, lastToken := Some("task"));
    StepUnfold(m1, "body");
    StepUnfold(m1.(state := TaskBody), "body");
    var m2 := Step(m1, "body");
    assert m2 == m.(state := TaskName, lastToken := Some("body"));
    StepUnfold(m2.(ctx := WithNewFunction(m2.ctx, name), state := TaskBody), name);
    RunCons(m, "task", ["body", name]);
    RunCons(m1, "body", [name]);
    RunOne(m2, name);
  }

  /** `task body T`, its declarations and `begin` lead to the task's
      statements in the global state, with `T` current. */
  lemma TaskBodyBegins(m: Machine, name: string, decls: seq<string>)
    requires m.state == Global && !m.macroDisabled && name != "body" && name != "begin"
    requires forall i :: 0 <= i < |decls| ==> decls[i] != "body" && decls[i] != "begin"
    ensures Run(m, ["task", "body", name] + decls + ["begin"])
         == m.(ctx := WithNewFunction(m.ctx, name), lastToken := Some("begin"))
  {
    var head := ["task", "body", name];
    assert head + decls + ["begin"] == head + (decls + ["begin"]);
    TaskBodyOpens(m, name);
    var m1 := Run(m, head);
    TaskDeclarations(m1, decls);
    var m2 := Run(m1, decls);
    StepUnfold(m2, "begin");
    StepUnfold(m2.(state := BeginSubprogram), "begin");
    RunAppend(m, head, decls + ["begin"]);
    RunAppend(m1, decls, ["begin"]);
    RunOne(m2, "begin");
  }

  /** Plain statements and `end N;` in the global state, with no bare block
      open, finish the current function. */
  lemma StatementsClose(m: Machine, body: seq<string>, endName: string)
    requires m.state == Global && !m.macroDisabled
    requires m.ctx.nestingStack == [] && m.nestedFunctions == 0
    requires forall i :: 0 <= i < |body| ==> Inert(body[i])
    requires endName !in TrivialEndKeywords
    ensures Run(m, body + ["end", endName, ";"])
         == m.(ctx := WithFunctionEnded(m.ctx), lastToken := Some(";"))
  {
    InertRun(m, body);
    CloseRoutine(Run(m, body), endName);
    RunAppend(m, body, ["end", endName, ";"]);
  }

  /** A task body with plain statements, at the outermost level, records
      exactly one finished function named after the task; `decls` is
      everything between the name and `begin`, `is` included. */
  lemma TaskBodyRoutine(m: Machine, name: string, decls: seq<string>, body: seq<string>)
    requires m.state == Global && !m.macroDisabled && name != "body" && name != "begin"
    requires m.ctx.nestingStack == [] && m.nestedFunctions == 0
    requires forall i :: 0 <= i < |decls| ==> decls[i] != "body" && decls[i] != "begin"
    requires forall i :: 0 <= i < |body| ==> Inert(body[i])
    requires name !in TrivialEndKeywords
    ensures Run(m, ["task", "body", name] + decls + ["begin"] + body + ["end", name, ";"])
         == m.(ctx := m.ctx.(functionList := m.ctx.functionList + [FunctionInfo(name, [])]),
               lastToken := Some(";"))
  {
    var head := ["task", "body", name] + decls + ["begin"];
    var rest := body + ["end", name, ";"];
    assert head + body + ["end", name, ";"] == head + rest;
    TaskBodyBegins(m, name, decls);
    StatementsClose(Run(m, head), body, name);
    EndUndoesPush(m.ctx, name);
    RunAppend(m, head, rest);
  }

  /** In a task body before `begin`, tokens other than `body` are ignored. */
  lemma {:induction false} TaskDeclarations(m: Machine, tokens: seq<string>)
    requires m.state == TaskBody && !m.macroDisabled
    requires forall i :: 0 <= i < |tokens| ==> tokens[i] != "body" && tokens[i] != "begin"
    ensures Run(m, tokens) == if tokens == [] then m else m.(lastToken := Some(tokens[|tokens| - 1]))
    decreases |tokens|
  {
    if tokens != [] {
      StepUnfold(m, tokens[0]);
      assert Step(m, tokens[0]) == m.(lastToken := Some(tokens[0]));
      TaskDeclarations(Step(m, tokens[0]), tokens[1..]);
    }
  }

  /** `task T` without `body` (a task declaration) starts no function and
      returns to the global state. */
  lemma TaskSpecIgnored(m: Machine, name: string)
    requires m.state == Global && !m.macroDisabled && name != "body"
    ensures Run(m, ["task", name]) == m.(lastToken := Some(name))
  {
    GlobalSeesWord(m, "task");
    StepUnfold(m, "task");
    var m1 := Step(m, "task");
    assert m1 == m.(state := Task, lastToken := Some("task"));
    RunCons(m, "task", [name]);
    RunOne(m1, name);
  }

  /** As the handlers are written, the `end T;` of a task declaration with
      entries is taken for the end of a routine: at the outermost level it
      finishes the current function (the global pseudo-function in a fresh
      file). */
  lemma TaskSpecEndFinishesCurrent(m: Machine, name: string, entry: string)
    requires m.state == Global && !m.macroDisabled && name != "body"
    requires m.ctx.nestingStack == [] && m.nestedFunctions == 0
    requires Inert(entry) && name !in TrivialEndKeywords
    ensures Run(m, ["task", name, "is", "entry", entry, ";", "end", name, ";"])
         == m.(ctx := WithFunctionEnded(m.ctx), lastToken := Some(";"))
  {
    var entries := ["is", "entry", entry, ";"];
    var tail := ["end", name, ";"];
    assert ["task", name, "is", "entry", entry, ";", "end", name, ";"]
        == ["task", name] + (entries + tail);
    TaskSpecIgnored(m, name);
    var m1 := Run(m, ["task", name]);
    LowerUnchanged("is");
    LowerUnchanged("entry");
    LowerUnchanged(";");
    assert forall i :: 0 <= i < |entries| ==> Inert(entries[i]);
    InertRun(m1, entries);
    CloseRoutine(Run(m1, entries), name);
    RunAppend(m, ["task", name], entries + tail);
    RunAppend(m1, entries, tail);
  }

  // ---------------------------------------------------------------------
  // `is null;` and `is new …;`.

  /** As the handlers are written, a subprogram completed by `is null;` (or
      instantiated by `is new G;`) is not finished by its `;`: the
      declarative part stays open and the function stays current, so the
      routine is only recorded at a later `end`. */
  lemma NullBodyStaysOpen(m: Machine, kind: string, name: string, completion: string)
    requires m.state == Global && !m.macroDisabled && Lower(kind) in SubprogramTokens
    requires completion != "begin" && completion != "end" && completion !in SubprogramTokens
    ensures Run(m, [kind, name, "is", completion, ";"])
         == m.(state := Decl, ctx := WithNewFunction(m.ctx, name), lastToken := Some(";"))
    ensures Run(m, [kind, name, "is", completion, ";"]).ctx.functionList == m.ctx.functionList
  {
    DeclarationsOpen(m, kind, name);
    var m1 := Run(m, [kind, name, "is"]);
    var m2 := Step(m1, completion);
    assert [kind, name, "is", completion, ";"] == [kind, name, "is"] + ([completion] + [";"]);
    RunAppend(m, [kind, name, "is"], [completion] + [";"]);
    RunCons(m1, completion, [";"]);
    RunOne(m2, ";");
  }

  // ---------------------------------------------------------------------
  // A whole file.

  /** `procedure Hello is begin null; end Hello;` in a fresh file yields
      one function, `Hello`, with no parameters. */
  lemma HelloProcedure()
    ensures Run(Initial(EmptyCtx), ["procedure", "Hello", "is", "begin", "null", ";", "end", "Hello", ";"])
              .ctx.functionList == [FunctionInfo("Hello", [])]
  {
    LowerUnchanged("procedure");
    LowerUnchanged("null");
    LowerUnchanged(";");
    var body := ["null", ";"];
    assert forall i :: 0 <= i < |body| ==> Inert(body[i]);
    RoutineWithBody(Initial(EmptyCtx), "procedure", "Hello", body, "Hello");
    assert ["procedure", "Hello", "is", "begin"] + body + ["end", "Hello", ";"]
        == ["procedure", "Hello", "is", "begin", "null", ";", "end", "Hello", ";"];
  }

  /** Two routines in a row are recorded in their order, and the machine is
      left as it was. */
  lemma TwoRoutines(m: Machine, kind1: string, first: string, body1: seq<string>,
                    kind2: string, second: string, body2: seq<string>)
    requires m.state == Global && !m.macroDisabled
    requires Lower(kind1) in SubprogramTokens && Lower(kind2) in SubprogramTokens
    requires m.ctx.nestingStack == [] && m.nestedFunctions == 0
    requires forall i :: 0 <= i < |body1| ==> Inert(body1[i])
    requires forall i :: 0 <= i < |body2| ==> Inert(body2[i])
    requires first !in TrivialEndKeywords && second !in TrivialEndKeywords
    ensures Run(m, ([kind1, first, "is", "begin"] + body1 + ["end", first, ";"])
                   + ([kind2, second, "is", "begin"] + body2 + ["end", second, ";"]))
         == m.(ctx := m.ctx.(functionList := m.ctx.functionList
                               + [FunctionInfo(first, []), FunctionInfo(second, [])]),
               lastToken := Some(";"))
  {
    var a := [kind1, first, "is", "begin"] + body1 + ["end", first, ";"];
    var b := [kind2, second, "is", "begin"] + body2 + ["end", second, ";"];
    RoutineWithBody(m, kind1, first, body1, first);
    var m1 := Run(m, a);
    RoutineWithBody(m1, kind2, second, body2, second);
    RunAppend(m, a, b);
  }

  /** `procedure F is begin end F; procedure G is begin end G;` in a fresh
      file yields `F`, then `G`. */
  lemma FThenG()
    ensures Run(Initial(EmptyCtx),
                ["procedure", "F", "is", "begin", "end", "F", ";",
                 "procedure", "G", "is", "begin", "end", "G", ";"])
              .ctx.functionList == [FunctionInfo("F", []), FunctionInfo("G", [])]
  {
    LowerUnchanged("procedure");
    var body: seq<string> := [];
    TwoRoutines(Initial(EmptyCtx), "procedure", "F", body, "procedure", "G", body);
    assert (["procedure", "F", "is", "begin"] + body + ["end", "F", ";"])
           + (["procedure", "G", "is", "begin"] + body + ["end", "G", ";"])
        == ["procedure", "F", "is", "begin", "end", "F", ";",
            "procedure", "G", "is", "begin", "end", "G", ";"];
  }

  /** `procedure Print renames Message.Print;` records `Print` as a finished
      function with no parameters. */
  lemma RenamingRecorded()
    ensures Run(Initial(EmptyCtx), ["procedure", "Print", "renames", "Message", ".", "Print", ";"])
              .ctx.functionList == [FunctionInfo("Print", [])]
  {
    LowerUnchanged("procedure");
    DeclarationWithSpec(Initial(EmptyCtx), "procedure", "Print", ["renames", "Message", ".", "Print"]);
    assert ["procedure", "Print"] + ["renames", "Message", ".", "Print"] + [";"]
        == ["procedure", "Print", "renames", "Message", ".", "Print", ";"];
  }
}
