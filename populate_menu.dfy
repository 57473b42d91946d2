/**
 * The generic interactive flows of src/lib/tree/populate_menu.py: prompting
 * for one field with retries and a cancellation word, collecting a new
 * record, editing an existing one through a repeated picker, confirming an
 * action, labelling the menu after a selection, narrowing a selection to the
 * children of a selected parent, and the delete flow.
 *
 * The terminal is a `Terminal` object holding the answers still to come:
 * lines for `input()` and list positions for `pick`. An answer that is not
 * there is an `EOFError`. `float(text)` is the parameter `toFloat`, `str()`
 * of a value is `show`, and `repr` of an instance is `describe`, a function
 * of its id and fields.
 */
module PopulateMenu {
  import opened Wrappers
  import opened PyValues
  import opened Validation
  import opened Entities
  import Menu
  import SqlHelper

  // ---------------------------------------------------------------------
  // The terminal

  /** The answers the user will give, in order. */
  datatype Answers = Answers(typed: seq<string>, picked: seq<int>)

  function Size(a: Answers): nat {
    |a.typed| + |a.picked|
  }

  /** `input(prompt)`: the next typed line. */
  function TypedLine(a: Answers): (r: (Result<string, Error>, Answers))
    ensures r.0.Success? ==> Size(r.1) == Size(a) - 1
    ensures r.0.Failure? ==> r.1 == a
  {
    if a.typed == [] then (Failure(EOFError), a)
    else (Success(a.typed[0]), a.(typed := a.typed[1..]))
  }

  /**
   * `pick(options, title)` over `n` options: the position the user moves to.
   * The picker refuses an empty list before it reads a key; a position
   * outside the list stands for an answer the picker cannot give.
   */
  function PickAt(n: nat, a: Answers): (r: (Result<nat, Error>, Answers))
    ensures r.0.Success? ==> r.0.value < n && Size(r.1) == Size(a) - 1
    ensures r.0.Failure? ==> Size(r.1) <= Size(a)
    ensures n == 0 ==> r == (Failure(Menu.NoOptionsError), a)
  {
    if n == 0 then (Failure(Menu.NoOptionsError), a)
    else if a.picked == [] then (Failure(EOFError), a)
    else if !(0 <= a.picked[0] < n) then (Failure(IndexError), a.(picked := a.picked[1..]))
    else (Success(a.picked[0] as nat), a.(picked := a.picked[1..]))
  }

  /** `user_selection(constraints, key)`: a pick among listed choices, otherwise a typed line. */
  function UserSelection(c: Constraints, a: Answers): (r: (Result<string, Error>, Answers))
    ensures r.0.Success? ==> Size(r.1) == Size(a) - 1
    ensures r.0.Failure? ==> Size(r.1) <= Size(a)
    ensures r.0.Success? && c.Choices? ==> r.0.value in c.options
  {
    match c
    case Choices(options) =>
      var p := PickAt(|options|, a);
      if p.0.Failure? then (Failure(p.0.error), p.1) else (Success(options[p.0.value]), p.1)
    case Hint(_) => TypedLine(a)
  }

  /** The errors the terminal itself raises, as opposed to a validator. */
  predicate TerminalError(e: Error) {
    e == EOFError || e == IndexError || e == Menu.NoOptionsError
  }

  class Terminal {
    var pending: Answers

    constructor (answers: Answers)
      ensures pending == answers
    {
      pending := answers;
    }

    method Input() returns (r: Result<string, Error>)
      modifies this
      ensures (r, pending) == TypedLine(old(pending))
    {
      var t := TypedLine(pending);
      r, pending := t.0, t.1;
    }

    method Pick(n: nat) returns (r: Result<nat, Error>)
      modifies this
      ensures (r, pending) == PickAt(n, old(pending))
    {
      var p := PickAt(n, pending);
      r, pending := p.0, p.1;
    }

    method Select(c: Constraints) returns (r: Result<string, Error>)
      modifies this
      ensures (r, pending) == UserSelection(c, old(pending))
    {
      match c
      case Choices(options) =>
        var p := Pick(|options|);
        r := if p.Failure? then Failure(p.error) else Success(options[p.value]);
      case Hint(_) =>
        r := Input();
    }
  }

  // ---------------------------------------------------------------------
  // show_user_selections

  /** The value `show_user_selections` returns when the user cancels. */
  const Cancel := Str("exit")

  /** The body of the `try`: amounts go through `float()` first, then the validator runs. */
  function Attempt(val: Validator, input: string, toFloat: string -> Option<real>): Result<Value, Error> {
    if val.name == "dollar_amt_validation" then
      match toFloat(input)
      case None => Failure(ValueError("could not convert string to float"))
      case Some(x) => val.check(Float(x))
    else val.check(Str(input))
  }

  /** The retry loop once `input` has been read: after any exception, ask again; only exact "exit"/"e" cancel. */
  function Retry(val: Validator, input: string, a: Answers, toFloat: string -> Option<real>): (r: (Result<Value, Error>, Answers))
    ensures Size(r.1) <= Size(a)
    decreases Size(a)
  {
    match Attempt(val, input, toFloat)
    case Success(v) => (Success(v), a)
    case Failure(_) =>
      var next := UserSelection(val.constraints, a);
      if next.0.Failure? then (Failure(next.0.error), next.1)
      else if next.0.value == "exit" || next.0.value == "e" then (Success(Cancel), next.1)
      else Retry(val, next.0.value, next.1, toFloat)
  }

  /** `show_user_selections(val_func, key)`: the first answer cancels on "exit"/"e" in any letter case. */
  function Ask(val: Validator, a: Answers, toFloat: string -> Option<real>): (r: (Result<Value, Error>, Answers))
    ensures Size(r.1) <= Size(a)
  {
    var first := UserSelection(val.constraints, a);
    if first.0.Failure? then (Failure(first.0.error), first.1)
    else if Lower(first.0.value) == "exit" || Lower(first.0.value) == "e" then (Success(Cancel), first.1)
    else Retry(val, first.0.value, first.1, toFloat)
  }

  method ShowUserSelections(val: Validator, term: Terminal, toFloat: string -> Option<real>) returns (r: Result<Value, Error>)
    modifies term
    ensures (r, term.pending) == Ask(val, old(term.pending), toFloat)
  {
    var first := term.Select(val.constraints);
    if first.Failure? {
      return Failure(first.error);
    }
    if Lower(first.value) == "exit" || Lower(first.value) == "e" {
      return Success(Cancel);
    }
    var input := first.value;
    while true
      invariant Ask(val, old(term.pending), toFloat) == Retry(val, input, term.pending, toFloat)
      decreases Size(term.pending)
    {
      var attempt := Attempt(val, input, toFloat);
      if attempt.Success? {
        return attempt;
      }
      var next := term.Select(val.constraints);
      if next.Failure? {
        return Failure(next.error);
      }
      if next.value == "exit" || next.value == "e" {
        return Success(Cancel);
      }
      input := next.value;
    }
  }

  /** A validator's exception never escapes: the prompt fails only when the terminal does. */
  lemma {:induction false} RetryRaisesOnlyTerminalErrors(val: Validator, input: string, a: Answers, toFloat: string -> Option<real>)
    ensures var r := Retry(val, input, a, toFloat);
      r.0.Failure? ==> TerminalError(r.0.error)
    ensures var r := Retry(val, input, a, toFloat);
      r.0.Success? && r.0.value != Cancel ==> exists s :: Attempt(val, s, toFloat) == Success(r.0.value)
    decreases Size(a)
  {
    if Attempt(val, input, toFloat).Failure? {
      var next := UserSelection(val.constraints, a);
      if next.0.Success? && next.0.value != "exit" && next.0.value != "e" {
        RetryRaisesOnlyTerminalErrors(val, next.0.value, next.1, toFloat);
      }
    }
  }

  /**
   * The outcome of a prompt: cancelled, a value some answer's validation
   * produced, or an error of the terminal.
   */
  lemma AskOutcomes(val: Validator, a: Answers, toFloat: string -> Option<real>)
    ensures var r := Ask(val, a, toFloat);
      && (r.0.Failure? ==> TerminalError(r.0.error))
      && (r.0.Success? && r.0.value != Cancel ==> exists s :: Attempt(val, s, toFloat) == Success(r.0.value))
  {
    var first := UserSelection(val.constraints, a);
    if first.0.Success? {
      RetryRaisesOnlyTerminalErrors(val, first.0.value, first.1, toFloat);
    }
  }

  /** A first answer of "exit" or "e", in any letter case, cancels before any validation. */
  lemma FirstAnswerCancels(val: Validator, a: Answers, toFloat: string -> Option<real>)
    requires val.constraints.Hint? && a.typed != [] && Lower(a.typed[0]) in {"exit", "e"}
    ensures Ask(val, a, toFloat) == (Success(Cancel), a.(typed := a.typed[1..]))
  {
  }

  /** A first answer that validates is returned as validated, and no further answer is read. */
  lemma FirstValidAnswerAccepted(val: Validator, a: Answers, toFloat: string -> Option<real>)
    requires val.constraints.Hint? && a.typed != [] && Lower(a.typed[0]) !in {"exit", "e"}
    requires Attempt(val, a.typed[0], toFloat).Success?
    ensures Ask(val, a, toFloat) == (Attempt(val, a.typed[0], toFloat), a.(typed := a.typed[1..]))
  {
  }

  /**
   * On a retry the cancel words are matched exactly: after an empty name is
   * refused, "EXIT" is taken as the name rather than as a cancellation.
   */
  lemma RetryCancelIsCaseSensitive(toFloat: string -> Option<real>)
    ensures Ask(NameValidator, Answers(["", "EXIT"], []), toFloat) == (Success(Str("EXIT")), Answers([], []))
  {
    var a := Answers(["", "EXIT"], []);
    assert Lower("") == "";
    assert NameValidator.check(Str("")).Failure?;
    assert UserSelection(NameValidator.constraints, a) == (Success(""), Answers(["EXIT"], []));
    assert UserSelection(NameValidator.constraints, Answers(["EXIT"], [])) == (Success("EXIT"), Answers([], []));
    assert NameValidator.check(Str("EXIT")) == Success(Str("EXIT"));
  }

  /**
   * A field whose choices the validator accepts is answered by one pick and
   * cannot be cancelled unless a choice is itself a cancel word.
   */
  lemma ChoiceFieldTakesOnePick(val: Validator, a: Answers, toFloat: string -> Option<real>)
    requires val.constraints.Choices? && val.name != "dollar_amt_validation"
    requires forall o :: o in val.constraints.options ==> Lower(o) != "exit" && Lower(o) != "e"
    requires forall o :: o in val.constraints.options ==> val.check(Str(o)) == Success(Str(o))
    ensures var r := Ask(val, a, toFloat);
      r.0.Success? ==> r.0.value != Cancel && r.0.value.Str? && r.0.value.s in val.constraints.options
  {
  }

  // ---------------------------------------------------------------------
  // new_itm_validation

  /** The VALIDATION_DICT of a class: every prompted key has a validator. */
  ghost predicate Prompted(s: Schema) {
    forall k :: k in s.prompts ==> k in s.setters
  }

  /** The prompt loop from `keys` on, with `obj` collected so far; `None` when a prompt is cancelled. */
  function Fill(s: Schema, keys: seq<string>, obj: map<string, Value>, a: Answers, toFloat: string -> Option<real>)
    : (r: (Result<Option<map<string, Value>>, Error>, Answers))
    requires forall k :: k in keys ==> k in s.setters
    decreases |keys|
  {
    if keys == [] then (Success(Some(obj)), a)
    else
      var asked := Ask(s.setters[keys[0]], a, toFloat);
      if asked.0.Failure? then (Failure(asked.0.error), asked.1)
      else if asked.0.value == Cancel then (Success(None), asked.1)
      else Fill(s, keys[1..], obj[keys[0] := asked.0.value], asked.1, toFloat)
  }

  /** The key under which a new record refers to its parent, and the parent's id. */
  function ParentLink(parent: Option<(string, Value)>, obj: map<string, Value>): map<string, Value> {
    if parent.Some? then obj[Lower(parent.value.0) + "_id" := parent.value.1] else obj
  }

  /** `new_itm_validation(cls, parent)`: the fields in prompt order, the parent link, then "Save? (Y/N)". */
  function NewItem(s: Schema, parent: Option<(string, Value)>, a: Answers, toFloat: string -> Option<real>)
    : (r: (Result<Option<map<string, Value>>, Error>, Answers))
    requires Prompted(s)
  {
    var filled := Fill(s, s.prompts, map[], a, toFloat);
    if filled.0.Failure? || filled.0.value.None? then filled
    else
      var confirm := TypedLine(filled.1);
      if confirm.0.Failure? then (Failure(confirm.0.error), confirm.1)
      else if Lower(confirm.0.value) == "y" then (Success(Some(ParentLink(parent, filled.0.value.value))), confirm.1)
      else (Success(None), confirm.1)
  }

  method NewItmValidation(s: Schema, parent: Entity?, term: Terminal, toFloat: string -> Option<real>)
    returns (r: Result<Option<map<string, Value>>, Error>)
    requires Prompted(s)
    modifies term
    ensures var link := if parent == null then None else Some((parent.schema.className, parent.id));
      (r, term.pending) == NewItem(s, link, old(term.pending), toFloat)
  {
    var obj := map[];
    var i := 0;
    while i < |s.prompts|
      invariant 0 <= i <= |s.prompts|
      invariant Fill(s, s.prompts, map[], old(term.pending), toFloat) == Fill(s, s.prompts[i..], obj, term.pending, toFloat)
    {
      var key := s.prompts[i];
      var value := ShowUserSelections(s.setters[key], term, toFloat);
      if value.Failure? {
        return Failure(value.error);
      }
      if value.value == Cancel {
        return Success(None);
      }
      obj := obj[key := value.value];
      assert s.prompts[i..][1..] == s.prompts[i + 1..];
      i := i + 1;
    }
    var confirm := term.Input();
    if confirm.Failure? {
      return Failure(confirm.error);
    }
    if Lower(confirm.value) == "y" {
      var link := if parent == null then None else Some((parent.schema.className, parent.id));
      return Success(Some(ParentLink(link, obj)));
    }
    return Success(None);
  }

  /** A completed prompt loop holds every prompted key, none of them holding the cancel value. */
  lemma {:induction false} FillKeys(s: Schema, keys: seq<string>, obj: map<string, Value>, a: Answers, toFloat: string -> Option<real>)
    requires forall k :: k in keys ==> k in s.setters
    ensures var r := Fill(s, keys, obj, a, toFloat);
      r.0.Success? && r.0.value.Some? ==>
        && r.0.value.value.Keys == obj.Keys + (set k | k in keys)
        && (forall k :: k in keys ==> r.0.value.value[k] != Cancel)
        && (forall k :: k in obj && k !in keys ==> r.0.value.value[k] == obj[k])
    decreases |keys|
  {
    if keys != [] {
      var asked := Ask(s.setters[keys[0]], a, toFloat);
      if asked.0.Success? && asked.0.value != Cancel {
        var next := obj[keys[0] := asked.0.value];
        FillKeys(s, keys[1..], next, asked.1, toFloat);
        var r := Fill(s, keys[1..], next, asked.1, toFloat);
        if r.0.Success? && r.0.value.Some? {
          var o := r.0.value.value;
          assert o.Keys == next.Keys + (set k | k in keys[1..]);
          assert o.Keys == obj.Keys + (set k | k in keys) by {
            forall k ensures k in o.Keys <==> k in obj.Keys || k in keys {
              assert k in keys <==> k == keys[0] || k in keys[1..];
            }
          }
          forall k | k in keys ensures o[k] != Cancel {
            if k !in keys[1..] {
              assert k == keys[0];
            }
          }
        }
      }
    }
  }

  /**
   * A saved record holds every prompted field and, when a parent is given,
   * `<parent class lowercased>_id` = the parent's id; a cancelled prompt or
   * an answer other than "y" yields no record.
   */
  lemma NewItemMeaning(s: Schema, parent: Option<(string, Value)>, a: Answers, toFloat: string -> Option<real>)
    requires Prompted(s)
    ensures var r := NewItem(s, parent, a, toFloat);
      r.0.Success? && r.0.value.Some? ==>
        && (forall k :: k in s.prompts ==> k in r.0.value.value)
        && (parent.Some? ==> r.0.value.value[Lower(parent.value.0) + "_id"] == parent.value.1)
        && (parent.None? ==> forall k :: k in r.0.value.value ==> k in s.prompts)
    ensures Fill(s, s.prompts, map[], a, toFloat).0 == Success(None) ==> NewItem(s, parent, a, toFloat).0 == Success(None)
    ensures var filled := Fill(s, s.prompts, map[], a, toFloat);
      filled.0.Success? && filled.0.value.Some? && filled.1.typed != [] && Lower(filled.1.typed[0]) != "y" ==>
        NewItem(s, parent, a, toFloat).0 == Success(None)
  {
    FillKeys(s, s.prompts, map[], a, toFloat);
  }

  // ---------------------------------------------------------------------
  // update_itm_validation

  const Submit := "<SUBMIT CHANGES>"

  /**
   * `str.isspace()` on one character: the ASCII controls 9-13 and 28-31,
   * the space, and the Unicode separators Python counts as white space.
   */
  predicate IsSpace(c: char) {
    var n := c as int;
    || 9 <= n <= 13 || 28 <= n <= 32 || n == 0x85 || n == 0xA0 || n == 0x1680
    || 0x2000 <= n <= 0x200A || n == 0x2028 || n == 0x2029 || n == 0x202F || n == 0x205F || n == 0x3000
  }

  /** `s.split(sep)[0]`: everything before the first `sep`. */
  function SplitHead(s: string, sep: char): (r: string)
    ensures r <= s && sep !in r
    ensures |r| < |s| ==> s[|r|] == sep
  {
    if s == [] || s[0] == sep then [] else [s[0]] + SplitHead(s[1..], sep)
  }

  function StripLeft(s: string): (r: string)
    ensures |r| <= |s| && r == s[|s| - |r|..]
    ensures r != [] ==> !IsSpace(r[0])
    ensures forall i :: 0 <= i < |s| - |r| ==> IsSpace(s[i])
  {
    if s != [] && IsSpace(s[0]) then StripLeft(s[1..]) else s
  }

  function StripRight(s: string): (r: string)
    ensures r <= s
    ensures r != [] ==> !IsSpace(r[|r| - 1])
    ensures forall i :: |r| <= i < |s| ==> IsSpace(s[i])
  {
    if s != [] && IsSpace(s[|s| - 1]) then StripRight(s[..|s| - 1]) else s
  }

  /** `s.strip()` */
  function Strip(s: string): string {
    StripRight(StripLeft(s))
  }

  /** `f"{key}: {value}"`, one line of the attribute picker. */
  function Label(key: string, text: string): string {
    key + ": " + text
  }

  /** `itm_to_update.split(":")[0].strip()` */
  function KeyOfLabel(line: string): string {
    Strip(SplitHead(line, ':'))
  }

  /** A key that reads back from its line: no ':' and no surrounding white space. */
  predicate PlainKey(key: string) {
    ':' !in key && (key != [] ==> !IsSpace(key[0]) && !IsSpace(key[|key| - 1]))
  }

  /** The picker line of a plain key reads back as that key. */
  lemma LabelKeyRoundTrip(key: string, text: string)
    requires PlainKey(key)
    ensures KeyOfLabel(Label(key, text)) == key
  {
    var line := Label(key, text);
    assert SplitHead(line, ':') == key by {
      assert line == key + (": " + text);
      SplitHeadOfPrefix(key, ": " + text, ':');
    }
    assert StripLeft(key) == key;
    assert StripRight(key) == key;
  }

  lemma {:induction false} SplitHeadOfPrefix(head: string, rest: string, sep: char)
    requires sep !in head && rest != [] && rest[0] == sep
    ensures SplitHead(head + rest, sep) == head
    decreases |head|
  {
    if head == [] {
      assert head + rest == rest;
    } else {
      assert (head + rest)[1..] == head[1..] + rest;
      SplitHeadOfPrefix(head[1..], rest, sep);
    }
  }

  /** `getattr(inst, key, None)` */
  function AttrOr(id: Value, fields: map<string, Value>, key: string): Value {
    if key == "id" then id else if key in fields then fields[key] else NoneV
  }

  /** The picker's lines: one per prompted attribute with its current value, then the submit line. */
  function PickerOptions(s: Schema, id: Value, fields: map<string, Value>, show: Value -> string): (options: seq<string>)
    ensures |options| == |s.prompts| + 1 && options[|s.prompts|] == Submit
    ensures forall i :: 0 <= i < |s.prompts| ==> options[i] == Label(s.prompts[i], show(AttrOr(id, fields, s.prompts[i])))
  {
    seq(|s.prompts|, i requires 0 <= i < |s.prompts| => Label(s.prompts[i], show(AttrOr(id, fields, s.prompts[i])))) + [Submit]
  }

  /**
   * `update_itm_validation(inst)`: pick an attribute, prompt for it, assign
   * it through its setter, and pick again; submitting or cancelling a prompt
   * ends the edit. The result is the fields, the exception raised, if any,
   * and the answers left.
   */
  function Updates(s: Schema, id: Value, fields: map<string, Value>, a: Answers,
                   toFloat: string -> Option<real>, show: Value -> string)
    : (u: (map<string, Value>, Option<Error>, Answers))
    requires Prompted(s)
    decreases Size(a)
  {
    var picked := UserSelection(Choices(PickerOptions(s, id, fields, show)), a);
    if picked.0.Failure? then (fields, Some(picked.0.error), picked.1)
    else if picked.0.value == Submit then (fields, None, picked.1)
    else
      var key := KeyOfLabel(picked.0.value);
      if key !in s.prompts then (fields, Some(KeyError), picked.1)
      else
        var asked := Ask(s.setters[key], picked.1, toFloat);
        if asked.0.Failure? then (fields, Some(asked.0.error), asked.1)
        else if asked.0.value == Cancel then (fields, None, asked.1)
        else
          match SetField(s, fields, key, asked.0.value)
          case Failure(e) => (fields, Some(e), asked.1)
          case Success(f) => Updates(s, id, f, asked.1, toFloat, show)
  }

  method UpdateItmValidation(inst: Entity, term: Terminal, toFloat: string -> Option<real>, show: Value -> string)
    returns (err: Option<Error>)
    requires Prompted(inst.schema)
    modifies inst`fields, term
    ensures var u := Updates(inst.schema, inst.id, old(inst.fields), old(term.pending), toFloat, show);
      inst.fields == u.0 && err == u.1 && term.pending == u.2
  {
    var s := inst.schema;
    while true
      invariant Updates(s, inst.id, old(inst.fields), old(term.pending), toFloat, show) ==
        Updates(s, inst.id, inst.fields, term.pending, toFloat, show)
      decreases Size(term.pending)
    {
      var picked := term.Select(Choices(PickerOptions(s, inst.id, inst.fields, show)));
      if picked.Failure? {
        return Some(picked.error);
      }
      if picked.value == Submit {
        return None;
      }
      var key := KeyOfLabel(picked.value);
      if key !in s.prompts {
        return Some(KeyError);
      }
      var value := ShowUserSelections(s.setters[key], term, toFloat);
      if value.Failure? {
        return Some(value.error);
      }
      if value.value == Cancel {
        return None;
      }
      var e := inst.Set(key, value.value);
      if e.Some? {
        return e;
      }
    }
  }

  /** `after` differs from `before` only in prompted attributes. */
  ghost predicate KeepsUnprompted(s: Schema, before: map<string, Value>, after: map<string, Value>) {
    && (forall k :: k in after ==> k in before || k in s.prompts)
    && (forall k :: k in before && k !in s.prompts ==> k in after && after[k] == before[k])
  }

  /** An edit changes only prompted attributes; every other field keeps its value. */
  lemma {:induction false} UpdatesTouchOnlyPrompts(s: Schema, id: Value, fields: map<string, Value>, a: Answers,
                                                   toFloat: string -> Option<real>, show: Value -> string)
    requires Prompted(s)
    ensures KeepsUnprompted(s, fields, Updates(s, id, fields, a, toFloat, show).0)
    decreases Size(a)
  {
    var u := Updates(s, id, fields, a, toFloat, show);
    var picked := UserSelection(Choices(PickerOptions(s, id, fields, show)), a);
    if picked.0.Success? && picked.0.value != Submit {
      var key := KeyOfLabel(picked.0.value);
      if key in s.prompts {
        var asked := Ask(s.setters[key], picked.1, toFloat);
        if asked.0.Success? && asked.0.value != Cancel {
          var f := SetField(s, fields, key, asked.0.value);
          if f.Success? {
            assert u == Updates(s, id, f.value, asked.1, toFloat, show);
            assert KeepsUnprompted(s, fields, f.value);
            UpdatesTouchOnlyPrompts(s, id, f.value, asked.1, toFloat, show);
            return;
          }
        }
      }
    }
    assert u.0 == fields;
  }

  /** Submitting first leaves the instance as it was. */
  lemma SubmitLeavesFields(s: Schema, id: Value, fields: map<string, Value>, a: Answers,
                           toFloat: string -> Option<real>, show: Value -> string)
    requires Prompted(s) && a.picked != [] && a.picked[0] == |s.prompts|
    ensures Updates(s, id, fields, a, toFloat, show) == (fields, None, a.(picked := a.picked[1..]))
  {
  }

  /**
   * Picking the line of a plain prompted attribute and giving an accepted
   * answer sets exactly that attribute to the validated answer, then the
   * picker runs again; a cancelled prompt ends the edit with the fields as
   * they were.
   */
  lemma PickSetsThatAttribute(s: Schema, id: Value, fields: map<string, Value>, a: Answers,
                              toFloat: string -> Option<real>, show: Value -> string)
    requires Prompted(s) && a.picked != [] && 0 <= a.picked[0] < |s.prompts| && PlainKey(s.prompts[a.picked[0]])
    ensures var key := s.prompts[a.picked[0]];
      var asked := Ask(s.setters[key], a.(picked := a.picked[1..]), toFloat);
      var u := Updates(s, id, fields, a, toFloat, show);
      && (asked.0 == Success(Cancel) ==> u == (fields, None, asked.1))
      && (asked.0.Success? && asked.0.value != Cancel && SetField(s, fields, key, asked.0.value).Success? ==>
            u == Updates(s, id, fields[key := s.setters[key].check(asked.0.value).value], asked.1, toFloat, show))
  {
    PickedAttribute(s, id, fields, a, show);
    var picked := UserSelection(Choices(PickerOptions(s, id, fields, show)), a);
    assert s.prompts[a.picked[0]] in s.prompts;
    UpdatesAfterPick(s, id, fields, a, toFloat, show, picked.0.value, picked.1);
  }

  /** One round of the edit loop, once the picker has returned an attribute's line. */
  lemma UpdatesAfterPick(s: Schema, id: Value, fields: map<string, Value>, a: Answers,
                         toFloat: string -> Option<real>, show: Value -> string, line: string, rest: Answers)
    requires Prompted(s)
    requires UserSelection(Choices(PickerOptions(s, id, fields, show)), a) == (Success(line), rest)
    requires line != Submit && KeyOfLabel(line) in s.prompts
    ensures var key := KeyOfLabel(line);
      var asked := Ask(s.setters[key], rest, toFloat);
      var u := Updates(s, id, fields, a, toFloat, show);
      && (asked.0 == Success(Cancel) ==> u == (fields, None, asked.1))
      && (asked.0.Success? && asked.0.value != Cancel && SetField(s, fields, key, asked.0.value).Success? ==>
            u == Updates(s, id, fields[key := s.setters[key].check(asked.0.value).value], asked.1, toFloat, show))
  {
  }

  /** Picking the line of a plain prompted attribute selects that attribute's key, not submit. */
  lemma PickedAttribute(s: Schema, id: Value, fields: map<string, Value>, a: Answers, show: Value -> string)
    requires a.picked != [] && 0 <= a.picked[0] < |s.prompts| && PlainKey(s.prompts[a.picked[0]])
    ensures var picked := UserSelection(Choices(PickerOptions(s, id, fields, show)), a);
      && picked.1 == a.(picked := a.picked[1..])
      && picked.0.Success? && picked.0.value != Submit
      && KeyOfLabel(picked.0.value) == s.prompts[a.picked[0]]
  {
    var i := a.picked[0];
    var key := s.prompts[i];
    var text := show(AttrOr(id, fields, key));
    var options := PickerOptions(s, id, fields, show);
    assert options[i] == Label(key, text);
    assert UserSelection(Choices(options), a) == (Success(Label(key, text)), a.(picked := a.picked[1..]));
    LabelKeyRoundTrip(key, text);
    LabelIsNotSubmit(key, text);
  }

  /** An attribute line holds a ':' and the submit line does not. */
  lemma LabelIsNotSubmit(key: string, text: string)
    ensures Label(key, text) != Submit
  {
    var line := Label(key, text);
    assert line[|key|] == ':';
    assert ':' !in Submit;
  }

  // ---------------------------------------------------------------------
  // run_func_if_confirm

  /** The `func` argument: one callable or a list of callables. */
  datatype FuncArg = One(f: Value) | Many(fs: seq<Value>)

  const NotCallable := TypeError("object is not callable")

  function Callables(func: FuncArg): seq<Value> {
    match func
    case One(f) => [f]
    case Many(fs) => fs
  }

  /**
   * `run_func_if_confirm(prompt, func)`: on an answer that lowercases to "y",
   * call the callable, or each callable of the list in order; `ran` is the
   * calls made. Calling a non-callable raises TypeError and stops the run.
   */
  method RunFuncIfConfirm(term: Terminal, func: FuncArg) returns (ran: seq<Value>, err: Option<Error>)
    modifies term
    ensures var confirm := TypedLine(old(term.pending));
      && term.pending == confirm.1
      && (confirm.0.Failure? ==> ran == [] && err == Some(confirm.0.error))
      && (confirm.0.Success? && Lower(confirm.0.value) != "y" ==> ran == [] && err.None?)
    ensures var confirm := TypedLine(old(term.pending));
      var fs := Callables(func);
      confirm.0.Success? && Lower(confirm.0.value) == "y" ==>
        && ran <= fs
        && (forall j :: 0 <= j < |ran| ==> ran[j].Fn?)
        && (err.None? ==> ran == fs)
        && (err.Some? ==> err == Some(NotCallable) && |ran| < |fs| && !fs[|ran|].Fn?)
  {
    var confirm := term.Input();
    if confirm.Failure? {
      return [], Some(confirm.error);
    }
    ran, err := [], None;
    if Lower(confirm.value) == "y" {
      var fs := Callables(func);
      var i := 0;
      while i < |fs|
        invariant 0 <= i <= |fs| && ran == fs[..i]
        invariant forall j :: 0 <= j < i ==> fs[j].Fn?
      {
        if !fs[i].Fn? {
          return ran, Some(NotCallable);
        }
        ran := ran + [fs[i]];
        i := i + 1;
      }
    }
  }

  // ---------------------------------------------------------------------
  // Selections and the menu

  /** The title a node shows once an instance is selected. */
  function OptionsFor(text: string): (t: string)
    ensures |t| == 13 + |text| && t[..13] == "Options for: " && t[13..] == text
  {
    "Options for: " + text
  }

  /**
   * `update_title_labels(inst, ref_node)`: store the selection in
   * `ref_node` and title `ref_node` and each of its direct children after it.
   */
  method UpdateTitleLabels(inst: Entity, refNode: Menu.Node, describe: (Value, map<string, Value>) -> string)
    modifies refNode`dataRef, refNode`titleLabel, refNode.children`titleLabel
    ensures var t := OptionsFor(describe(inst.id, inst.fields));
      && refNode.dataRef == inst && refNode.titleLabel == t
      && (forall c :: c in refNode.children ==> c.titleLabel == t)
    ensures old(refNode.Valid()) ==> refNode.Valid()
    ensures forall c :: c in refNode.children && old(c.Valid()) ==> c.Valid()
  {
    var t := OptionsFor(describe(inst.id, inst.fields));
    refNode.dataRef := inst;
    refNode.titleLabel := t;
    var children := refNode.children;
    var i := 0;
    while i < |children|
      invariant 0 <= i <= |children| && children == refNode.children
      invariant refNode.dataRef == inst && refNode.titleLabel == t
      invariant forall j :: 0 <= j < i ==> children[j].titleLabel == t
      invariant forall c :: c in children && old(c.Valid()) && c != refNode ==> c.Valid()
      invariant old(refNode.Valid()) ==> refNode.Valid()
    {
      children[i].titleLabel := t;
      i := i + 1;
    }
  }

  /**
   * `[inst for inst in options if getattr(inst, key) == parent_id]`; an
   * instance without the attribute raises AttributeError.
   */
  function ChildrenOf(options: seq<Entity>, key: string, parentId: Value): (r: Result<seq<Entity>, Error>)
    reads options
    ensures r.Failure? <==> exists i :: 0 <= i < |options| && options[i].Attr(key).None?
    ensures r.Failure? ==> r.error == AttributeError(key)
    ensures r.Success? ==> |r.value| <= |options|
    ensures r.Success? ==> forall i :: 0 <= i < |r.value| ==>
      r.value[i] in options && r.value[i].Attr(key).Some? && PyEq(r.value[i].Attr(key).value, parentId)
    ensures r.Success? ==> forall i :: 0 <= i < |options| && PyEq(options[i].Attr(key).GetOr(NoneV), parentId) ==>
      options[i] in r.value
    decreases |options|
  {
    if options == [] then Success([])
    else
      match options[0].Attr(key)
      case None => Failure(AttributeError(key))
      case Some(v) =>
        var rest := ChildrenOf(options[1..], key, parentId);
        if rest.Failure? then rest
        else if PyEq(v, parentId) then Success([options[0]] + rest.value)
        else rest
  }

  /** The attribute by which an instance refers to a parent of class `className`. */
  function ParentKey(className: string): string {
    Lower(className) + "_id"
  }

  /**
   * What `store_selected_instance` offers: the given options, or every
   * instance when none are given, narrowed to the children of the parent
   * selected in `parent_ref`, when there is one.
   */
  function Candidates(allInstances: seq<Entity>, options: seq<Entity>, parent: Entity?): Result<seq<Entity>, Error>
    reads allInstances, options, parent
  {
    var offered := if options == [] then allInstances else options;
    if parent == null then Success(offered)
    else ChildrenOf(offered, ParentKey(parent.schema.className), parent.id)
  }

  /** With a parent selected, every candidate refers to that parent. */
  lemma CandidateIsChild(allInstances: seq<Entity>, options: seq<Entity>, parent: Entity, i: nat)
    requires Candidates(allInstances, options, parent).Success? && i < |Candidates(allInstances, options, parent).value|
    ensures var x := Candidates(allInstances, options, parent).value[i];
      var key := ParentKey(parent.schema.className);
      x.Attr(key).Some? && PyEq(x.Attr(key).value, parent.id)
  {
  }

  /**
   * `store_selected_instance(cls, ref_node, parent_ref, options)`:
   * `allInstances` is `cls.get_all_instances()`.
   */
  method StoreSelectedInstance(allInstances: seq<Entity>, refNode: Menu.Node, parentRef: Menu.Node?, options: seq<Entity>,
                               term: Terminal, describe: (Value, map<string, Value>) -> string)
    returns (err: Option<Error>)
    modifies term, refNode`dataRef, refNode`titleLabel, refNode.children`titleLabel
    ensures var parent := if parentRef == null then null else old(parentRef.dataRef);
      var c := old(Candidates(allInstances, options, parent));
      && (c.Failure? ==> err == Some(c.error) && refNode.dataRef == old(refNode.dataRef) && term.pending == old(term.pending))
      && (c.Success? ==> var p := PickAt(|c.value|, old(term.pending));
            && term.pending == p.1
            && (p.0.Failure? ==> err == Some(p.0.error) && refNode.dataRef == old(refNode.dataRef))
            && (p.0.Success? ==> err.None? && refNode.dataRef == c.value[p.0.value]))
    ensures err.Some? ==>
      && refNode.titleLabel == old(refNode.titleLabel)
      && forall c :: c in refNode.children ==> c.titleLabel == old(c.titleLabel)
    ensures var parent := if parentRef == null then null else old(parentRef.dataRef);
      err.None? ==>
        && refNode.dataRef != null
        && refNode.titleLabel == OptionsFor(describe(refNode.dataRef.id, refNode.dataRef.fields))
        && (forall c :: c in refNode.children ==> c.titleLabel == refNode.titleLabel)
        && (parent != null ==>
              var key := ParentKey(parent.schema.className);
              refNode.dataRef.Attr(key).Some? && PyEq(refNode.dataRef.Attr(key).value, parent.id))
  {
    var parent := if parentRef == null then null else parentRef.dataRef;
    var c := Candidates(allInstances, options, parent);
    if c.Failure? {
      return Some(c.error);
    }
    var p := term.Pick(|c.value|);
    if p.Failure? {
      return Some(p.error);
    }
    var selected := c.value[p.value];
    ghost var key := if parent == null then "" else ParentKey(parent.schema.className);
    ghost var linked := parent != null ==> selected.Attr(key).Some? && PyEq(selected.Attr(key).value, parent.id);
    if parent != null {
      CandidateIsChild(allInstances, options, parent, p.value);
    }
    UpdateTitleLabels(selected, refNode, describe);
    assert linked == (parent != null ==> selected.Attr(key).Some? && PyEq(selected.Attr(key).value, parent.id));
    return None;
  }

  // ---------------------------------------------------------------------
  // The delete flow

  /**
   * `finalize_delete(ref_node)`: delete the selected instance, then clear
   * the selection. `cache` is the `all` dictionary of the instance's class.
   */
  method FinalizeDelete(refNode: Menu.Node, cache: Cache) returns (err: Option<Error>)
    requires cache.Valid()
    modifies refNode`dataRef, cache`all, {refNode.dataRef}`id
    ensures cache.Valid()
    ensures old(refNode.dataRef) == null ==>
      err == Some(AttributeError("delete")) && refNode.dataRef == null && cache.all == old(cache.all)
    ensures old(refNode.dataRef) != null ==>
      var inst := old(refNode.dataRef);
      var deletes := IsIdentifier(inst.schema.table) && IsInstanceInt(old(inst.id)) && IntOf(old(inst.id)) in old(cache.all);
      && (deletes ==> err.None? && refNode.dataRef == null && inst.id == NoneV &&
                      cache.all == old(cache.all) - {IntOf(old(inst.id))})
      && (!deletes ==> err.Some? && refNode.dataRef == inst && inst.id == old(inst.id) && cache.all == old(cache.all))
      && (!IsIdentifier(inst.schema.table) ==> err == Some(SqlHelper.InvalidTable))
      && (IsIdentifier(inst.schema.table) && !deletes ==> err == Some(KeyError))
  {
    var inst := refNode.dataRef;
    if inst == null {
      return Some(AttributeError("delete"));
    }
    err := SqlHelper.Delete(inst, cache, inst.schema.table);
    if err.None? {
      refNode.dataRef := null;
    }
  }

  /**
   * `delete_selected_instance(ref_node)`: ask for confirmation, delete on
   * "y", and go to the parent of `Node.last_node`; a delete that raises
   * (no selection, an invalid table, an uncached id) propagates and keeps
   * the selection.
   */
  method DeleteSelectedInstance(refNode: Menu.Node, cls: Menu.NodeClass, term: Terminal, cache: Cache)
    returns (r: Result<Menu.Node?, Error>)
    requires cache.Valid()
    modifies term, refNode`dataRef, cache`all, {refNode.dataRef}`id
    ensures cache.Valid()
    ensures r.Success? ==> cls.lastNode != null && r.value == cls.lastNode.parent
    ensures var confirm := TypedLine(old(term.pending));
      && term.pending == confirm.1
      && (confirm.0.Failure? ==>
            && r == Failure(confirm.0.error) && refNode.dataRef == old(refNode.dataRef) && cache.all == old(cache.all)
            && (old(refNode.dataRef) != null ==> old(refNode.dataRef).id == old(refNode.dataRef.id)))
      && (confirm.0.Success? && Lower(confirm.0.value) != "y" ==>
            && refNode.dataRef == old(refNode.dataRef) && cache.all == old(cache.all)
            && (old(refNode.dataRef) != null ==> old(refNode.dataRef).id == old(refNode.dataRef.id))
            && r == (if cls.lastNode == null then Failure(AttributeError("parent")) else Success(cls.lastNode.parent)))
    ensures var confirm := TypedLine(old(term.pending));
      confirm.0.Success? && Lower(confirm.0.value) == "y" && old(refNode.dataRef) != null &&
      IsIdentifier(old(refNode.dataRef).schema.table) && IsInstanceInt(old(refNode.dataRef.id)) &&
      IntOf(old(refNode.dataRef.id)) in old(cache.all) ==>
        && refNode.dataRef == null && cache.all == old(cache.all) - {IntOf(old(refNode.dataRef.id))}
        && old(refNode.dataRef).id == NoneV
        && r == (if cls.lastNode == null then Failure(AttributeError("parent")) else Success(cls.lastNode.parent))
    ensures var confirm := TypedLine(old(term.pending));
      confirm.0.Success? && Lower(confirm.0.value) == "y" && !(old(refNode.dataRef) != null &&
      IsIdentifier(old(refNode.dataRef).schema.table) && IsInstanceInt(old(refNode.dataRef.id)) &&
      IntOf(old(refNode.dataRef.id)) in old(cache.all)) ==>
        && r.Failure? && refNode.dataRef == old(refNode.dataRef) && cache.all == old(cache.all)
        && (old(refNode.dataRef) != null ==> old(refNode.dataRef).id == old(refNode.dataRef.id))
        && (old(refNode.dataRef) == null ==> r == Failure(AttributeError("delete")))
        && (old(refNode.dataRef) != null && !IsIdentifier(old(refNode.dataRef).schema.table) ==> r == Failure(SqlHelper.InvalidTable))
        && (old(refNode.dataRef) != null && IsIdentifier(old(refNode.dataRef).schema.table) ==> r == Failure(KeyError))
  {
    var confirm := term.Input();
    if confirm.Failure? {
      return Failure(confirm.error);
    }
    if Lower(confirm.value) == "y" {
      var err := FinalizeDelete(refNode, cache);
      if err.Some? {
        return Failure(err.value);
      }
    }
    if cls.lastNode == null {
      return Failure(AttributeError("parent"));
    }
    return Success(cls.lastNode.parent);
  }
}
