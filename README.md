# Ada subprogram recognition in lizard, modelled in Dafny

The lizard code analyser reads Ada source files (`.adb`, `.ads`) as a stream of
tokens. The Ada reader cleans the stream up first: it drops white-space tokens,
keeps newlines, and folds every Ada reserved word to lower case. It also tells
the framework which tokens are comments (`--` to the end of the line). A state
machine, `AdaStates`, then reads the cleaned tokens one at a time. It finds
functions, procedures and task bodies. It gives the tokens of each parameter
list to the current function. It tracks `if`/`loop`/`begin`/package blocks as
"bare nesting" markers, so that it can tell which `end` closes a routine. It
counts local routines declared inside a declarative part, so that the enclosing
routine resumes once a local one ends. Finished routines go to the file
information context.

The model has five modules:

- `Wrappers`: the `Option` type.
- `AdaReader`: the reserved-word set, Python's `str.isspace` and `str.lower`
  restricted to what the reader's comparisons need, `Preprocess` and
  `CommentFromToken`, and their properties.
- `Context`: the part of the file-information context that the machine drives,
  as `Ctx` values with pure operations, plus the class `FileInfoBuilder` whose
  methods update its fields to match those operations.
- `AdaMachine`: the machine's state as a `Machine` value, with two functions
  that specify it. `Step` is one call of the machine on a token. `Dispatch` is
  the current handler applied to that token. `Run` applies `Step` to a whole
  stream. The class `AdaStates` has the source's fields and one method per
  handler. Each method is proved to leave the object and its context in
  exactly the state that `Dispatch` (or `Step`) gives.
- `AdaProperties`: what the machine guarantees. An invariant is kept by every
  token, and one token can only change the context a little. Each keyword has a
  stated meaning. Whole constructs are proved: an `if`/`elsif`/`else`
  statement, a declaration with or without a parameter list, a routine with a
  body, a routine with a local routine, and a task body. There is also a
  concrete file.

A handler that calls `next(s, token)` sets the state to `s` and feeds the same
token to the machine again. This goes through the macro check and records the
last token. The model treats it as a recursive `Step` on the machine switched
to `s`. Termination holds because such a hand-on always goes to a state of
lower rank.

The parameter handler is wrapped by the framework's
`read_inside_brackets_then('()', '_subprogram_defn')`.
`lizard_languages/code_reader.py` is not part of this model. The model
therefore uses the wrapper's usual behaviour. It keeps a count of open
brackets. Every token inside the region, both outer brackets included, goes to
`parameter`. When the count returns to zero, the state becomes the definition
handler, and the closing bracket is not handed on again.

The file-information context is not part of this model either. `Context`
assumes the following:

- The nesting level is the height of the nesting stack.
- `push_new_function` suspends the current function and starts a new one with
  no parameters.
- `end_of_function` appends the current function to the function list. It then
  resumes the function that was suspended last, or the global pseudo-function
  `*global*` if none was suspended.
- `add_namespace` keeps namespaces apart from the nesting stack, so it does not
  change the nesting level. The only marker a package adds is the one pushed at
  its `is`, and that decides which `end` closes a routine inside it
  (`PackageHeader`, `EndOfRoutine`).

## Model

| member | source | states |
|---|---|---|
| AdaReader.Preprocess | lizard_languages/ada.py:47-54 | at most as many tokens come out as go in, and every token that comes out is canonical: neither a non-newline white-space token nor a word whose lower-case form is a reserved word but is not written in lower case |
| AdaReader.PreprocessIsFoldedKeptTokens | lizard_languages/ada.py:47-54 | the output is exactly the kept tokens, in their order, each folded to lower case if and only if its lower-case form is a reserved word |
| AdaReader.KeptTokensCount | lizard_languages/ada.py:48-50 | a token is dropped exactly when it is white space other than a newline; every other token keeps all its occurrences |
| AdaReader.NormalizeFoldsExactlyKeywords | lizard_languages/ada.py:51-54 | a token is changed only if its lower-case form is a reserved word, and then it becomes that form; folding never changes which word a token is when compared without case |
| AdaReader.NormalizeCanonical | lizard_languages/ada.py:49-54 | folding a kept token gives a token that folding leaves alone |
| AdaReader.KeywordsAreLowerWords | lizard_languages/ada.py:17-24 | every reserved word is a non-empty word of lower-case letters, so it is its own lower-case form |
| AdaReader.PreprocessAppend | lizard_languages/ada.py:47-54 | the generator works token by token: the preprocessed concatenation of two streams is the concatenation of their preprocessed forms |
| AdaReader.PreprocessIdempotent | lizard_languages/ada.py:47-54 | preprocessing an already preprocessed stream changes nothing |
| AdaReader.FoldedTokenIsLetters | lizard_languages/ada.py:51-52 | a token is folded only when it is spelt with ASCII letters and the Kelvin sign alone, the characters on which the model's case folding is Python's `str.lower` |
| AdaReader.CommentFromToken | lizard_languages/ada.py:57-59 | a token is a comment if and only if it starts with `--`, and then the comment is the token itself |
| AdaReader.NewlinePassesThrough | lizard_languages/ada.py:49-54 | a newline token is kept unchanged |
| AdaReader.CommentPassesThrough | lizard_languages/ada.py:49-54 | a comment token is kept unchanged |
| Context.FileInfoBuilder.AddBareNesting | lizard_languages/ada.py:158 | pushes one bare marker and changes nothing else |
| Context.FileInfoBuilder.PopNesting | lizard_languages/ada.py:207 | removes the top marker and changes nothing else |
| Context.FileInfoBuilder.PushNewFunction | lizard_languages/ada.py:113 | suspends the current function and makes a new one with no parameters current |
| Context.FileInfoBuilder.EndOfFunction | lizard_languages/ada.py:128 | appends the current function to the list and resumes the last suspended one, or the global pseudo-function |
| Context.FileInfoBuilder.AddNamespace | lizard_languages/ada.py:178 | appends one namespace |
| Context.FileInfoBuilder.Parameter | lizard_languages/ada.py:143 | appends the token to the current function's parameters |
| Context.EndUndoesPush | lizard_languages/ada.py:123-130 | ending a function straight after starting it records exactly that function, with no parameters, and restores everything else |
| Context.PopUndoesPush | lizard_languages/ada.py:205-209 | popping a marker straight after pushing one restores the stack |
| Context.EndAppendsCurrent | lizard_languages/ada.py:211-216 | ending a function appends exactly the current function, resumes at most one suspended function, and leaves the nesting stack and namespaces alone |
| AdaMachine.AdaStates.constructor | lizard_languages/ada.py:72-76 | a new machine is in the global state, with no pending local routines, no last token, and the given context |
| AdaMachine.AdaStates.Feed | lizard_languages/ada.py:78-87 | does nothing while the reader's macros are disabled; otherwise the current handler takes the token, which then becomes the last token; the new state is `Step` of the old one |
| AdaMachine.AdaStates.Next | lizard_languages/ada.py:109-110 | switches to the named state and feeds the token again through the macro check |
| AdaMachine.AdaStates.ResetState | lizard_languages/ada.py:145-149 | returns to the global state, and when a token is given the global handler then takes it |
| AdaMachine.AdaStates.StateGlobal | lizard_languages/ada.py:90-107 | compares the token case-insensitively, in the source's order: `function`/`procedure`, `then`/`do`/`loop`, `end`, packages, `begin`, `elsif`/`else` (handed on), `task`, `;` |
| AdaMachine.AdaStates.SubprogramState | lizard_languages/ada.py:109-110 | hands the token on to the name handler |
| AdaMachine.AdaStates.SubprogramNameState | lizard_languages/ada.py:112-114 | starts a function with the token as its name and expects a parameter list |
| AdaMachine.AdaStates.ExpectSubprogramParams | lizard_languages/ada.py:117-121 | `(` is handed on to the parameter reader and anything else to the definition part |
| AdaMachine.AdaStates.SubprogramParams | lizard_languages/ada.py:141-143 | counts bracket depth, gives every token to the current function, and at depth zero moves to the definition part |
| AdaMachine.AdaStates.SubprogramDefn | lizard_languages/ada.py:123-130 | ignores `with` and `return`, hands `is` on to the declarative part, and on `;` finishes the function and lets the global handler see the `;` |
| AdaMachine.AdaStates.SubprogramDecl | lizard_languages/ada.py:132-139 | hands `begin` and `end` on; a lower-case `function`/`procedure` counts one more pending local routine |
| AdaMachine.AdaStates.IgnoreNextState | lizard_languages/ada.py:151-152 | returns to the global state |
| AdaMachine.AdaStates.BeginSubprogramState | lizard_languages/ada.py:154-155 | returns to the global state without a marker |
| AdaMachine.AdaStates.BeginState | lizard_languages/ada.py:157-159 | pushes a marker and returns to the global state |
| AdaMachine.AdaStates.ElseState | lizard_languages/ada.py:161-164 | `elsif` pops a marker if there is one; either way the machine returns to the global state |
| AdaMachine.AdaStates.ThenState | lizard_languages/ada.py:166-168 | pushes a marker and returns to the global state |
| AdaMachine.AdaStates.PackageState | lizard_languages/ada.py:170-178 | ignores `body`, turns `is` into a marker and a return to the global state, and records any other token as a namespace |
| AdaMachine.AdaStates.TaskNameState | lizard_languages/ada.py:180-182 | starts a function named by the token and hands the token on to the task-body handler |
| AdaMachine.AdaStates.TaskBodyState | lizard_languages/ada.py:184-191 | `body` expects the task name, `begin` is handed on, and everything else is ignored |
| AdaMachine.AdaStates.TaskState | lizard_languages/ada.py:193-197 | `body` is handed on to the task-body handler; anything else returns to the global state |
| AdaMachine.AdaStates.EndState | lizard_languages/ada.py:199-203 | `if`, `loop` and `case` close a bare block; any other word may close a routine |
| AdaMachine.AdaStates.PopBareNestingState | lizard_languages/ada.py:205-209 | pops a marker if there is one and returns to the global state |
| AdaMachine.AdaStates.PopFunctionIfExistsState | lizard_languages/ada.py:211-221 | at level zero finishes the current function and resumes a pending enclosing declarative part if there is one; otherwise pops a marker |
| AdaProperties.InitialValid | lizard_languages/ada.py:72-76 | a new machine satisfies the invariant |
| AdaProperties.DispatchKeepsValid | lizard_languages/ada.py:90-221 | every handler keeps the invariant: the count of pending local routines is never negative, and the bracket depth is positive exactly while a parameter list is being read |
| AdaProperties.StepKeepsValid | lizard_languages/ada.py:78-87 | one token keeps the invariant |
| AdaProperties.RunKeepsValid | lizard_languages/ada.py:78-87 | every token stream keeps the invariant |
| AdaProperties.NestedFunctionsNeverNegative | lizard_languages/ada.py:211-218 | from a new machine, whatever the input, the count of pending local routines never goes below zero |
| AdaProperties.DispatchEffect | lizard_languages/ada.py:90-221 | a handler, with everything it hands on, finishes at most the current function, moves the nesting depth by at most one, and adds at most the token as a namespace |
| AdaProperties.StepEffect | lizard_languages/ada.py:78-87 | the same bound holds for one call of the machine |
| AdaProperties.FunctionListGrows | lizard_languages/ada.py:211-221 | the list of finished functions only grows, by at most one function per token |
| AdaProperties.EndOfBlock | lizard_languages/ada.py:199-209 | after `end`, the words `if`, `loop` and `case` pop one marker if there is one, finish no function, and return to the global state |
| AdaProperties.EndOfRoutine | lizard_languages/ada.py:211-221 | after `end`, any other word finishes the current function when no marker is open, resuming the enclosing declarative part exactly when a local routine was pending; otherwise it pops one marker |
| AdaProperties.EndInDeclarations | lizard_languages/ada.py:132-136 | `end` in a declarative part is treated as `end` followed by a routine name |
| AdaProperties.OpenerAddsOneMarker | lizard_languages/ada.py:90-103 | after `then`, `do`, `loop` or `begin` in any case, the next token pushes exactly one marker and is not itself dispatched |
| AdaProperties.InertRun | lizard_languages/ada.py:90-107 | the global state ignores identifiers, `;` and keywords it does not react to |
| AdaProperties.ElsifClosesArm | lizard_languages/ada.py:161-164 | `elsif` pops one marker, if there is one, and changes nothing else |
| AdaProperties.ElseKeepsNesting | lizard_languages/ada.py:161-164 | `else` changes nothing but the last token |
| AdaProperties.ThenArm | lizard_languages/ada.py:166-168 | after a condition of ignored tokens, `then s …;` adds exactly one marker and changes nothing else in the context |
| AdaProperties.IfArm | lizard_languages/ada.py:166-168 | `if c then s …;` with a condition of ignored tokens leaves exactly one more marker; the arm's first token, whatever it is, is taken by `then` |
| AdaProperties.ElsifArm | lizard_languages/ada.py:161-168 | `elsif c then s …;` leaves the nesting depth as it was |
| AdaProperties.ElsifArmsKeepDepth | lizard_languages/ada.py:161-168 | any number of `elsif` arms, one after another, leave the nesting depth as it was |
| AdaProperties.ElseArm | lizard_languages/ada.py:161-164 | an `else` arm of plain statements, or none, changes nothing |
| AdaProperties.EndIf | lizard_languages/ada.py:199-209 | `end if;` pops one marker and finishes no function |
| AdaProperties.IfStatement | lizard_languages/ada.py:90-209 | a whole `if` statement, with any number of `elsif` arms and with or without `else`, leaves the machine as it found it |
| AdaProperties.DefinitionPart | lizard_languages/ada.py:123-130 | in the definition part `is` opens the declarative part, `;` finishes the function and returns to the global state, and anything else is ignored |
| AdaProperties.PackageHeader | lizard_languages/ada.py:170-178 | after `package`, `body` is ignored, `is` pushes a marker and returns to the global state, and any other token becomes a namespace |
| AdaProperties.SubprogramNamed | lizard_languages/ada.py:109-114 | the token after `function`/`procedure` starts a function of that name |
| AdaProperties.Header | lizard_languages/ada.py:90-114 | `procedure P` in any case starts a function named `P` and expects its parameters |
| AdaProperties.NoParameterList | lizard_languages/ada.py:117-121 | without `(` the token goes straight to the definition part |
| AdaProperties.DeclarationWithoutBody | lizard_languages/ada.py:123-130 | `procedure P;` records exactly one finished function `P` with no parameters and restores everything else |
| AdaProperties.DeclarationWithSpec | lizard_languages/ada.py:123-130 | a declaration without a parameter list whose definition part (a renaming, a result type, an aspect) ends in `;` records exactly one function with no parameters and restores everything else |
| AdaProperties.RenamingRecorded | test/test_languages/testAda.py:179-184 | `procedure Print renames Message.Print;` in a fresh file yields exactly the function `Print` |
| AdaProperties.IsOpensDeclarations | lizard_languages/ada.py:117-130 | `is` after the name opens the declarative part |
| AdaProperties.BeginEndsDeclarations | lizard_languages/ada.py:132-134 | `begin` ends the declarative part without a marker |
| AdaProperties.LocalSubprogramStarts | lizard_languages/ada.py:137-139 | a local routine in a declarative part counts one more pending local routine |
| AdaProperties.CloseRoutine | lizard_languages/ada.py:211-221 | `end N;` with no marker open finishes the current function, and resumes the enclosing declarative part exactly when a local routine was pending |
| AdaProperties.DeclarationsOpen | lizard_languages/ada.py:109-130 | `procedure P is` opens the declarative part of a new function `P` |
| AdaProperties.BodyCloses | lizard_languages/ada.py:132-136 | `begin`, plain statements and `end N;` after a declarative part finish the current function |
| AdaProperties.RoutineWithBody | lizard_languages/ada.py:109-139 | a routine with a body of plain statements at the outermost level records exactly one function, with its name and no parameters, and leaves the machine as it found it |
| AdaProperties.LocalRoutine | lizard_languages/ada.py:137-139 | a local routine is recorded and the enclosing declarative part resumes unchanged |
| AdaProperties.RoutineWithLocalRoutine | lizard_languages/ada.py:211-221 | a routine with a local routine records the local one first and the enclosing one second |
| AdaProperties.ParamsRun | lizard_languages/ada.py:141-143 | inside the brackets every token, brackets included, becomes a parameter of the current function, and the bracket that closes the list leads to the definition part |
| AdaProperties.ParameterList | lizard_languages/ada.py:117-121 | a parameter list after the name becomes the current function's parameters |
| AdaProperties.FlatListCloses | lizard_languages/ada.py:141-143 | a list without inner brackets is closed by its `)` exactly when it was opened once |
| AdaProperties.DefinitionTokens | lizard_languages/ada.py:123-125 | result types, `with` aspects and other tokens before `is` or `;` are ignored |
| AdaProperties.DefinitionEnds | lizard_languages/ada.py:127-130 | `;` after the definition part finishes the function |
| AdaProperties.HeaderWithParameters | lizard_languages/ada.py:117-121 | `procedure P (…)` starts `P` with the list's tokens as parameters |
| AdaProperties.DeclarationWithParameters | lizard_languages/ada.py:123-130 | a declaration with a parameter list and no body records one function whose parameters are the tokens of the list |
| AdaProperties.TaskBodyOpens | lizard_languages/ada.py:180-197 | `task body T` starts a function named `T` |
| AdaProperties.TaskDeclarations | lizard_languages/ada.py:184-191 | a task body's declarations before `begin` are ignored |
| AdaProperties.TaskBodyBegins | lizard_languages/ada.py:184-191 | `begin` in a task body leads to its statements with the task current |
| AdaProperties.TaskBodyRoutine | lizard_languages/ada.py:180-197 | a task body at the outermost level records exactly one function named after the task |
| AdaProperties.TaskSpecIgnored | lizard_languages/ada.py:193-197 | `task T` without `body` starts no function |
| AdaProperties.TaskSpecEndFinishesCurrent | lizard_languages/ada.py:193-197 | the `end T;` of a task declaration with entries finishes the current function, as the handlers are written |
| AdaProperties.NullBodyStaysOpen | lizard_languages/ada.py:132-139 | `procedure P is null;` leaves the declarative part of `P` open and records nothing, as the handlers are written |
| AdaProperties.TwoRoutines | lizard_languages/ada.py:109-139 | two routines in a row are recorded in their order, and the machine is left as it was |
| AdaProperties.FThenG | test/test_languages/testAda.py:145-153 | `procedure F is begin end F; procedure G is begin end G;` in a fresh file yields `F`, then `G` |
| AdaProperties.HelloProcedure | lizard_languages/ada.py:78-221 | `procedure Hello is begin null; end Hello;` in a fresh file yields exactly the function `Hello` with no parameters |

## Left out

- `AdaReader.generate_tokens` and the `_ends` pattern: tokenising is regular-expression work on raw text. The model starts from a token stream.
- Counting lines, conditions and tokens, and the other metrics: these belong to the framework and to `_conditions`, not to the state machine.
- Qualifying function names with namespaces, and turning parameter tokens into a parameter count: that is context code that is not part of this model. The model records the raw name and the raw parameter tokens.
- `saved_state` and `callback` in `__call__` are used only when a handler returns a true value, and no Ada handler does. `to_exit` is tested after every token (ada.py:86-87), but nothing in ada.py sets it. The model has no such flag, and a step never returns a value.
- AdaProperties.IfStatement: conditions and arms are made of tokens the global state ignores, apart from the first token of each `then` arm. A condition with the short-circuit `and then` is not covered: as the handlers are written, its `then` opens a second marker. Nested blocks inside an arm are not covered either.
- `_fun_name`: it is cleared by `reset_state` but never read.
- Newline and comment tokens are removed by the framework before the state machine sees them. The scenario lemmas therefore use streams without them.
- The reader's `macro_disabled` switch is a field of the machine's model. Nothing in the Ada code sets it.
- Lower: Python's `str.lower` is modelled for ASCII letters and the Kelvin sign (the only non-ASCII character whose lower-case form is an ASCII letter); other characters are left unchanged. A token is folded only when its lower-case form is a reserved word, and then it is spelt with those characters alone (`FoldedTokenIsLetters`), so `Preprocess` agrees with the source on every token. Only the machine's own case-insensitive comparisons see `Lower` on other tokens, and they compare against ASCII words, where the result is the same as Python's.
- `scar.py` and the repository's test file are not modelled.
- For a routine completed by `is null;` or `is new …;`, the repository's tests expect a finished function. The handlers do not finish it at that `;`, and the model follows the handlers (see `NullBodyStaysOpen`).
- The source marks tasks as unfinished work. As the handlers are written, the `end T;` of a task declaration with entries is taken as the end of a routine, and the model keeps that behaviour (see `TaskSpecEndFinishesCurrent`).
