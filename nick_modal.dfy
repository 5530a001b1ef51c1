/**
 * The nickname dialog of src/components/NickModal.jsx as an object: its three
 * state fields, and a log of what it sends to the server (`checkName`) and to
 * its parent (`onJoin`). The server's availability reply is a parameter of
 * `CheckAndJoin`.
 */
module Nick {
  import opened Text

  /** The palette the colour buttons offer. */
  const Colors: seq<string> := ["#60A5FA", "#34D399", "#F472B6", "#FBBF24", "#A78BFA", "#F87171"]

  const BlankNameError: string := "Введите никнейм"
  const NameTakenError: string := "Имя занято, выберите другое"

  /** What the dialog does outside itself. */
  datatype Effect = CheckName(name: string) | OnJoin(name: string, color: string)

  /** The error shown and the effects issued by one press of Join. */
  datatype Outcome = Outcome(error: string, effects: seq<Effect>)

  function CountCheckName(effects: seq<Effect>): nat {
    if effects == [] then 0 else (if effects[0].CheckName? then 1 else 0) + CountCheckName(effects[1..])
  }

  function CountOnJoin(effects: seq<Effect>): nat {
    if effects == [] then 0 else (if effects[0].OnJoin? then 1 else 0) + CountOnJoin(effects[1..])
  }

  /**
   * `checkAndJoin` with the server answering `available`: a blank name only
   * shows an error; otherwise the trimmed name is checked, and either the
   * "taken" error is shown or the parent is told to join.
   */
  function JoinFlow(name: string, color: string, error: string, available: bool): (r: Outcome)
    ensures r.effects == [] <==> AllSpace(name)
    ensures |r.effects| == 2 <==> !AllSpace(name) && available
    ensures r.error == (if AllSpace(name) then BlankNameError else if available then error else NameTakenError)
  {
    if IsBlank(name) then Outcome(BlankNameError, [])
    else if !available then Outcome(NameTakenError, [CheckName(Trim(name))])
    else Outcome(error, [CheckName(Trim(name)), OnJoin(Trim(name), color)])
  }

  /** A blank or white-space name shows the blank-name error and asks the server nothing. */
  lemma BlankNameRejected(name: string, color: string, error: string, available: bool)
    requires AllSpace(name)
    ensures JoinFlow(name, color, error, available) == Outcome(BlankNameError, [])
  {
  }

  /** Any other name is checked exactly once, as the trimmed name, and that request comes first. */
  lemma OneCheckOfTrimmedName(name: string, color: string, error: string, available: bool)
    requires !AllSpace(name)
    ensures var r := JoinFlow(name, color, error, available);
      CountCheckName(r.effects) == 1 && r.effects[0] == CheckName(Trim(name))
  {
    var r := JoinFlow(name, color, error, available);
    assert r.effects[1..] == if available then [OnJoin(Trim(name), color)] else [];
    if available {
      assert r.effects[1..][1..] == [];
      assert CountCheckName(r.effects[1..]) == 0;
    }
  }

  /** A taken name shows the taken error and never joins. */
  lemma TakenNameDoesNotJoin(name: string, color: string, error: string)
    requires !AllSpace(name)
    ensures var r := JoinFlow(name, color, error, false);
      r.error == NameTakenError && CountOnJoin(r.effects) == 0
  {
  }

  /** An available name joins exactly once, with the trimmed name and the chosen colour, and keeps the error. */
  lemma AvailableNameJoinsOnce(name: string, color: string, error: string)
    requires !AllSpace(name)
    ensures var r := JoinFlow(name, color, error, true);
      && r.error == error && CountOnJoin(r.effects) == 1
      && r.effects[|r.effects| - 1] == OnJoin(Trim(name), color)
  {
    var r := JoinFlow(name, color, error, true);
    assert r.effects[1..] == [OnJoin(Trim(name), color)];
    assert r.effects[1..][1..] == [];
    assert CountOnJoin(r.effects[1..]) == 1;
  }

  /** The name handed to the parent is non-empty and has no surrounding white space. */
  lemma JoinedNameIsTrimmed(name: string, color: string, error: string)
    requires !AllSpace(name)
    ensures var n := Trim(name);
      && JoinFlow(name, color, error, true).effects[1] == OnJoin(n, color)
      && n != [] && !IsSpace(n[0]) && !IsSpace(n[|n| - 1]) && Trim(n) == n
  {
    TrimIdempotent(name);
  }

  class NickModal {
    var name: string
    var color: string
    var error: string
    /** Every `checkName` emit and `onJoin` call so far, oldest first. */
    var log: seq<Effect>

    /** The selected colour is always one of the palette's. */
    ghost predicate Valid()
      reads this
    {
      color in Colors
    }

    constructor ()
      ensures Valid()
      ensures name == "" && color == Colors[0] && error == "" && log == []
    {
      name, color, error, log := "", Colors[0], "", [];
    }

    /** Pressing Join, with the server's reply to the availability check. */
    method CheckAndJoin(available: bool)
      requires Valid()
      modifies this
      ensures Valid()
      ensures name == old(name) && color == old(color)
      ensures error == JoinFlow(old(name), old(color), old(error), available).error
      ensures log == old(log) + JoinFlow(old(name), old(color), old(error), available).effects
    {
      ghost var outcome := JoinFlow(name, color, error, available);
      if IsBlank(name) {
        assert outcome == Outcome(BlankNameError, []);
        error := BlankNameError;
        return;
      }
      var trimmed := Trim(name);
      log := log + [CheckName(trimmed)];
      if !available {
        assert outcome == Outcome(NameTakenError, [CheckName(trimmed)]);
        error := NameTakenError;
        return;
      }
      assert outcome == Outcome(error, [CheckName(trimmed), OnJoin(trimmed, color)]);
      log := log + [OnJoin(trimmed, color)];
    }

    /** Typing in the name field stores the text and clears the error. */
    method EditName(value: string)
      requires Valid()
      modifies this
      ensures Valid()
      ensures name == value && error == "" && color == old(color) && log == old(log)
    {
      name := value;
      error := "";
    }

    /** Clicking the `i`-th colour button. */
    method PickColor(i: nat)
      requires Valid() && i < |Colors|
      modifies this
      ensures Valid()
      ensures color == Colors[i] && name == old(name) && error == old(error) && log == old(log)
    {
      color := Colors[i];
    }
  }
}
