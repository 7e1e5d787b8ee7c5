/** The prompt input component: it gathers the options from four form fields and
    raises a `run` event for a non-empty prompt while it is enabled. The fields are
    plain strings; `parseInt` is an abstract partial parse, `None` standing for NaN. */
module PromptInputs {
  import opened Wrappers
  import opened Text

  /** The options record; a key that was not set is `None`. */
  datatype Options = Options(
    systemPrompt: Option<string>,
    maxTurns: Option<int>,
    permissionMode: Option<string>,
    allowedTools: Option<seq<string>>)

  const NoOptions := Options(None, None, None, None)

  /** What a `run` event carries. */
  datatype RunEvent = RunEvent(content: string, options: Option<Options>)

  /** A tool name as the tool list yields it: not blank, no surrounding white space. */
  predicate IsToolName(t: string) {
    t != "" && IsTrimmed(t)
  }

  /** What one piece contributes: its trimmed text, unless that is empty. */
  function Kept(piece: string): (r: seq<string>)
    ensures |r| <= 1
    ensures r != [] ==> IsToolName(r[0])
  {
    if Trim(piece) == "" then [] else [Trim(piece)]
  }

  /** `.map(t => t.trim()).filter(t => t)` */
  function KeepTools(pieces: seq<string>): (r: seq<string>)
    ensures |r| <= |pieces|
    ensures forall k :: 0 <= k < |r| ==> IsToolName(r[k])
  {
    if pieces == [] then [] else Kept(pieces[0]) + KeepTools(pieces[1..])
  }

  /** `s.split(',').map(t => t.trim()).filter(t => t)` */
  function ToolList(s: string): (r: seq<string>)
    ensures forall k :: 0 <= k < |r| ==> IsToolName(r[k])
    ensures |r| <= |Split(s, ',')|
  {
    KeepTools(Split(s, ','))
  }

  /** Trimming and dropping empty pieces respects the order of the pieces. */
  lemma {:induction false} KeepToolsAppend(a: seq<string>, b: seq<string>)
    ensures KeepTools(a + b) == KeepTools(a) + KeepTools(b)
  {
    if a != [] {
      assert (a + b)[0] == a[0] && (a + b)[1..] == a[1..] + b;
      KeepToolsAppend(a[1..], b);
    } else {
      assert a + b == b;
    }
  }

  lemma KeptName(t: string)
    requires IsToolName(t)
    ensures Kept(t) == [t]
  {
    TrimTrimmed(t);
  }

  /** The tool list of two comma-separated parts is the tool list of the first
      followed by that of the second: every piece is kept, trimmed, in order, and
      only empty pieces are dropped. */
  lemma ToolListAppend(a: string, b: string)
    ensures ToolList(a + [','] + b) == ToolList(a) + ToolList(b)
  {
    SplitAppend(a, b, ',');
    KeepToolsAppend(Split(a, ','), Split(b, ','));
  }

  /** A single piece contributes its trimmed text, or nothing when it is blank. */
  lemma ToolListOfPiece(piece: string)
    requires ',' !in piece
    ensures ToolList(piece) == if Trim(piece) == "" then [] else [Trim(piece)]
  {
    SplitWithoutSep(piece, ',');
    assert KeepTools([piece]) == Kept(piece) + KeepTools([]);
  }

  /** Pieces that are already tool names are kept, all of them, unchanged. */
  lemma {:induction false} KeepToolsOfNames(names: seq<string>)
    requires forall k :: 0 <= k < |names| ==> IsToolName(names[k])
    ensures KeepTools(names) == names
  {
    if names != [] {
      KeptName(names[0]);
      KeepToolsOfNames(names[1..]);
      assert names == [names[0]] + names[1..];
    }
  }

  /** A comma-joined list of tool names is read back as exactly that list. */
  lemma ToolListOfJoin(names: seq<string>)
    requires |names| >= 1
    requires forall k :: 0 <= k < |names| ==> IsToolName(names[k]) && ',' !in names[k]
    ensures ToolList(Join(names, ',')) == names
  {
    SplitJoin(names, ',');
    KeepToolsOfNames(names);
  }

  /** A comma-joined list of tool names neither begins nor ends with white space. */
  lemma {:induction false} JoinOfNamesTrimmed(names: seq<string>)
    requires |names| >= 1
    requires forall k :: 0 <= k < |names| ==> IsToolName(names[k])
    ensures Join(names, ',') != "" && IsTrimmed(Join(names, ','))
  {
    if |names| > 1 {
      JoinOfNamesTrimmed(names[1..]);
      var rest := Join(names[1..], ',');
      assert (names[0] + [','] + rest)[0] == names[0][0];
      assert (names[0] + [','] + rest)[|names[0] + [','] + rest| - 1] == rest[|rest| - 1];
    }
  }

  /** The `system_prompt` key: the trimmed field, unless that is empty. */
  function SystemPromptKey(field: string): (r: Option<string>)
    ensures r.Some? <==> Trim(field) != ""
    ensures r.Some? ==> r.value == Trim(field) && IsTrimmed(r.value)
  {
    var systemPrompt := Trim(field);
    if systemPrompt != "" then Some(systemPrompt) else None
  }

  /** The `max_turns` key: the parsed field, when it is a positive number. */
  function MaxTurnsKey(field: string, parseInt: string -> Option<int>): (r: Option<int>)
    ensures r.Some? <==> parseInt(field).Some? && parseInt(field).value > 0
    ensures r.Some? ==> r == parseInt(field) && r.value > 0
  {
    var maxTurns := parseInt(field);
    if maxTurns.Some? && maxTurns.value > 0 then maxTurns else None
  }

  /** The `permission_mode` key: the selected value as it is, unless it is empty. */
  function PermissionModeKey(field: string): (r: Option<string>)
    ensures r.Some? <==> field != ""
    ensures r.Some? ==> r.value == field
  {
    if field != "" then Some(field) else None
  }

  /** The `allowed_tools` key: the tool list of the trimmed field, unless that is
      empty; the list itself may then still be empty (a field of commas only). */
  function AllowedToolsKey(field: string): (r: Option<seq<string>>)
    ensures r.Some? <==> Trim(field) != ""
    ensures r.Some? ==> r.value == ToolList(Trim(field))
  {
    var allowedToolsStr := Trim(field);
    if allowedToolsStr != "" then Some(ToolList(allowedToolsStr)) else None
  }

  /** `getOptions`: each key is set from its field and the record is `null` when no
      key was set. */
  function GetOptions(systemPromptField: string, maxTurnsField: string, permissionModeField: string,
                      allowedToolsField: string, parseInt: string -> Option<int>): (r: Option<Options>)
    ensures r.None? <==>
      && SystemPromptKey(systemPromptField).None? && MaxTurnsKey(maxTurnsField, parseInt).None?
      && PermissionModeKey(permissionModeField).None? && AllowedToolsKey(allowedToolsField).None?
    ensures r.Some? ==> r.value == Options(
      SystemPromptKey(systemPromptField), MaxTurnsKey(maxTurnsField, parseInt),
      PermissionModeKey(permissionModeField), AllowedToolsKey(allowedToolsField))
  {
    var options := Options(
      SystemPromptKey(systemPromptField), MaxTurnsKey(maxTurnsField, parseInt),
      PermissionModeKey(permissionModeField), AllowedToolsKey(allowedToolsField));
    if options == NoOptions then None else Some(options)
  }

  /** `getOptions` returns `null` exactly when every field is blank: both text
      fields trim to nothing, max turns is not a positive number and no permission
      mode is selected. */
  lemma GetOptionsIsNull(systemPromptField: string, maxTurnsField: string, permissionModeField: string,
                         allowedToolsField: string, parseInt: string -> Option<int>)
    ensures GetOptions(systemPromptField, maxTurnsField, permissionModeField, allowedToolsField, parseInt).None? <==>
      && Trim(systemPromptField) == ""
      && !(parseInt(maxTurnsField).Some? && parseInt(maxTurnsField).value > 0)
      && permissionModeField == ""
      && Trim(allowedToolsField) == ""
  {
  }

  /** An options record of the shape `getOptions` gives: text keys are non-empty
      (the system prompt also trimmed), max turns is positive, and the tool list,
      which may be empty, holds tool names without commas. GetOptionsWellFormed and
      GetOptionsRoundTrip show these are exactly the records `getOptions` produces. */
  predicate WellFormed(o: Options) {
    && (o.systemPrompt.Some? ==> o.systemPrompt.value != "" && IsTrimmed(o.systemPrompt.value))
    && (o.maxTurns.Some? ==> o.maxTurns.value > 0)
    && (o.permissionMode.Some? ==> o.permissionMode.value != "")
    && (o.allowedTools.Some? ==>
          forall k :: 0 <= k < |o.allowedTools.value| ==>
            IsToolName(o.allowedTools.value[k]) && ',' !in o.allowedTools.value[k])
  }

  /** A text for the allowed-tools field: empty for no key, a lone comma for the
      empty list, and the names joined with commas otherwise. */
  function ToolsField(tools: Option<seq<string>>): string {
    match tools
    case None => ""
    case Some(names) => if names == [] then "," else Join(names, ',')
  }

  /** A tool list never holds a comma: `split(',')` has removed them all. */
  lemma {:induction false} KeepToolsWithoutComma(pieces: seq<string>)
    requires forall i :: 0 <= i < |pieces| ==> ',' !in pieces[i]
    ensures forall k :: 0 <= k < |KeepTools(pieces)| ==> ',' !in KeepTools(pieces)[k]
  {
    if pieces != [] {
      TrimWithin(pieces[0]);
      KeepToolsWithoutComma(pieces[1..]);
    }
  }

  /** Every record `getOptions` returns is well formed. */
  lemma GetOptionsWellFormed(systemPromptField: string, maxTurnsField: string, permissionModeField: string,
                             allowedToolsField: string, parseInt: string -> Option<int>)
    ensures var r := GetOptions(systemPromptField, maxTurnsField, permissionModeField, allowedToolsField, parseInt);
      r.Some? ==> WellFormed(r.value)
  {
    KeepToolsWithoutComma(Split(Trim(allowedToolsField), ','));
  }

  /** The allowed-tools field written for a well-formed record's tool list reads back
      as that list, and the empty field as no key. */
  lemma ToolsFieldRoundTrip(o: Options)
    requires WellFormed(o)
    ensures AllowedToolsKey(ToolsField(o.allowedTools)) == o.allowedTools
  {
    var field := ToolsField(o.allowedTools);
    if o.allowedTools.Some? {
      if o.allowedTools.value == [] {
        assert Split(",", ',') == ["", ""] by {
          assert ","[1..] == "";
        }
        assert ToolList(",") == [] by {
          assert Trim("") == "";
          assert Kept("") == [];
          assert KeepTools(["", ""]) == Kept("") + KeepTools([""]);
          assert KeepTools([""]) == Kept("") + KeepTools([]);
        }
      } else {
        JoinOfNamesTrimmed(o.allowedTools.value);
        ToolListOfJoin(o.allowedTools.value);
      }
    }
    TrimTrimmed(field);
  }

  /** The system prompt, max turns and permission mode of a well-formed record,
      written into their fields, read back as the record's values. */
  lemma ScalarFieldsRoundTrip(o: Options, maxTurnsField: string, parseInt: string -> Option<int>)
    requires WellFormed(o)
    requires parseInt(maxTurnsField) == o.maxTurns
    ensures SystemPromptKey(o.systemPrompt.GetOr("")) == o.systemPrompt
    ensures MaxTurnsKey(maxTurnsField, parseInt) == o.maxTurns
    ensures PermissionModeKey(o.permissionMode.GetOr("")) == o.permissionMode
  {
    TrimTrimmed(o.systemPrompt.GetOr(""));
  }

  /** When every key reads back as the record's own value, `getOptions` gives the
      record, or `null` for the empty one. */
  lemma GetOptionsOfKeys(o: Options, systemPromptField: string, maxTurnsField: string, permissionModeField: string,
                         allowedToolsField: string, parseInt: string -> Option<int>)
    requires SystemPromptKey(systemPromptField) == o.systemPrompt
    requires MaxTurnsKey(maxTurnsField, parseInt) == o.maxTurns
    requires PermissionModeKey(permissionModeField) == o.permissionMode
    requires AllowedToolsKey(allowedToolsField) == o.allowedTools
    ensures GetOptions(systemPromptField, maxTurnsField, permissionModeField, allowedToolsField, parseInt)
            == if o == NoOptions then None else Some(o)
  {
  }

  /** Writing a well-formed record's values into the fields and reading them back
      with `getOptions` gives the record again, or `null` for the empty record. */
  lemma GetOptionsRoundTrip(o: Options, maxTurnsField: string, parseInt: string -> Option<int>)
    requires WellFormed(o)
    requires parseInt(maxTurnsField) == o.maxTurns
    ensures GetOptions(o.systemPrompt.GetOr(""), maxTurnsField, o.permissionMode.GetOr(""),
                       ToolsField(o.allowedTools), parseInt)
            == if o == NoOptions then None else Some(o)
  {
    ScalarFieldsRoundTrip(o, maxTurnsField, parseInt);
    ToolsFieldRoundTrip(o);
    GetOptionsOfKeys(o, o.systemPrompt.GetOr(""), maxTurnsField, o.permissionMode.GetOr(""),
                     ToolsField(o.allowedTools), parseInt);
  }

  /** The `<prompt-input>` element: its `disabled` flag, the values of its form
      fields, and the state of its textarea and buttons. */
  class PromptInput {
    var disabled: bool
    var prompt: string
    var systemPromptField: string
    var maxTurnsField: string
    var permissionModeField: string
    var allowedToolsField: string
    var textareaDisabled: bool
    var runDisabled: bool
    var clearDisabled: bool
    var optionsDisabled: bool
    var runLabel: string

    /** The element as first rendered: enabled, an empty prompt, max turns 10, the
        default permission mode selected. */
    constructor ()
      ensures !disabled && prompt == "" && runLabel == "Run"
      ensures systemPromptField == "" && maxTurnsField == "10" && permissionModeField == "default" && allowedToolsField == ""
      ensures !textareaDisabled && !runDisabled && !clearDisabled && !optionsDisabled
    {
      disabled := false;
      prompt := "";
      systemPromptField, maxTurnsField, permissionModeField, allowedToolsField := "", "10", "default", "";
      textareaDisabled, runDisabled, clearDisabled, optionsDisabled := false, false, false, false;
      runLabel := "Run";
    }

    /** `handleRun`: the `run` event it dispatches, if any. Nothing is dispatched for
        a blank prompt or while the element is disabled. */
    method HandleRun(parseInt: string -> Option<int>) returns (ev: Option<RunEvent>)
      ensures ev.None? <==> Trim(prompt) == "" || disabled
      ensures ev.Some? ==> ev.value.content == Trim(prompt) && ev.value.content != "" && IsTrimmed(ev.value.content)
      ensures ev.Some? ==>
        ev.value.options == GetOptions(systemPromptField, maxTurnsField, permissionModeField, allowedToolsField, parseInt)
    {
      var content := Trim(prompt);
      if content == "" || disabled {
        return None;
      }
      var options := GetOptions(systemPromptField, maxTurnsField, permissionModeField, allowedToolsField, parseInt);
      ev := Some(RunEvent(content, options));
    }

    /** `clear`: empties the prompt. */
    method Clear()
      modifies this`prompt
      ensures prompt == ""
    {
      prompt := "";
    }

    /** The element as `setDisabled(d)` leaves it: the flag, the textarea and the
        three buttons follow `d`, and the run button reads "Running..." exactly while
        disabled. */
    predicate ShowsDisabled(d: bool)
      reads this
    {
      && disabled == d
      && textareaDisabled == d && runDisabled == d && clearDisabled == d && optionsDisabled == d
      && runLabel == (if d then "Running..." else "Run")
    }

    /** `setDisabled` */
    method SetDisabled(d: bool)
      modifies this`disabled, this`textareaDisabled, this`runDisabled, this`clearDisabled, this`optionsDisabled, this`runLabel
      ensures ShowsDisabled(d)
    {
      disabled := d;
      textareaDisabled, runDisabled, clearDisabled, optionsDisabled := d, d, d, d;
      if d {
        runLabel := "Running...";
      } else {
        runLabel := "Run";
      }
    }
  }
}
