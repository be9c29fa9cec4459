/** The yes/no confirmation dialog (src/app/ui/widgets/confirm_widget/confirm.rs). */
module ConfirmWidget {
  import opened Wrappers
  import opened Terminal

  /**
   * The action a confirmation guards. Its definition is not part of this
   * model; it is an uninterpreted token here.
   */
  datatype ConfirmAction = ConfirmAction(token: nat)

  /** The keys that move the highlight between "Yes" and "Cancel". */
  predicate IsToggleKey(key: Key) {
    key == Left || key == Right || key == Char('h') || key == Char('l')
  }

  /** The highlighted choice after a sequence of key presses, starting from `selected`. */
  function SelectedAfter(selected: bool, keys: seq<Key>): bool
    decreases |keys|
  {
    if keys == [] then selected
    else SelectedAfter(if IsToggleKey(keys[0]) then !selected else selected, keys[1..])
  }

  /** The number of toggle keys in a sequence of key presses. */
  function ToggleCount(keys: seq<Key>): nat
    decreases |keys|
  {
    if keys == [] then 0 else (if IsToggleKey(keys[0]) then 1 else 0) + ToggleCount(keys[1..])
  }

  /** The highlight flips once per toggle key and ignores every other key. */
  lemma {:induction false} SelectedAfterParity(selected: bool, keys: seq<Key>)
    ensures SelectedAfter(selected, keys) == (selected != (ToggleCount(keys) % 2 == 1))
    decreases |keys|
  {
    if keys != [] {
      SelectedAfterParity(if IsToggleKey(keys[0]) then !selected else selected, keys[1..]);
    }
  }

  /**
   * From a fresh dialog, an odd number of toggle presses highlights "Yes" and
   * an even number "Cancel".
   */
  lemma TogglePresses(keys: seq<Key>)
    requires forall i :: 0 <= i < |keys| ==> IsToggleKey(keys[i])
    ensures SelectedAfter(false, keys) == (|keys| % 2 == 1)
  {
    SelectedAfterParity(false, keys);
    AllTogglesCounted(keys);
  }

  lemma {:induction false} AllTogglesCounted(keys: seq<Key>)
    requires forall i :: 0 <= i < |keys| ==> IsToggleKey(keys[i])
    ensures ToggleCount(keys) == |keys|
    decreases |keys|
  {
    if keys != [] {
      AllTogglesCounted(keys[1..]);
    }
  }

  class Confirm {
    var message: string
    var selected: bool
    var action: Option<ConfirmAction>

    /** `Confirm::new`: no message, "Cancel" highlighted, no action. */
    constructor ()
      ensures message == "" && !selected && action == None
    {
      message := "";
      selected := false;
      action := None;
    }

    /**
     * `handle_key`: a toggle key flips the highlight and decides nothing;
     * Enter decides the highlighted choice; Esc decides "no"; other keys do
     * nothing. Only the highlight can change.
     */
    method HandleKey(key: Key) returns (r: Option<bool>)
      modifies this`selected
      ensures selected == SelectedAfter(old(selected), [key])
      ensures IsToggleKey(key) ==> selected == !old(selected) && r == None
      ensures key == Enter ==> selected == old(selected) && r == Some(selected)
      ensures key == Esc ==> selected == old(selected) && r == Some(false)
      ensures !IsToggleKey(key) && key != Enter && key != Esc ==> selected == old(selected) && r == None
    {
      if IsToggleKey(key) {
        selected := !selected;
        r := None;
      } else if key == Enter {
        r := Some(selected);
      } else if key == Esc {
        r := Some(false);
      } else {
        r := None;
      }
    }

    /** Sets the message only. */
    method WithMessage(m: string)
      modifies this`message
      ensures message == m
    {
      message := m;
    }

    /** Attaches the action only. */
    method Action(a: ConfirmAction)
      modifies this`action
      ensures action == Some(a)
    {
      action := Some(a);
    }
  }

  /** Feeding key presses one at a time, as `handle_key` is called, gives the same highlight. */
  lemma {:induction false} SelectedAfterAppend(selected: bool, keys: seq<Key>, key: Key)
    ensures SelectedAfter(selected, keys + [key]) == SelectedAfter(SelectedAfter(selected, keys), [key])
    decreases |keys|
  {
    if keys != [] {
      assert (keys + [key])[1..] == keys[1..] + [key];
      SelectedAfterAppend(if IsToggleKey(keys[0]) then !selected else selected, keys[1..], key);
    } else {
      assert keys + [key] == [key];
    }
  }
}
