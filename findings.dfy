/** Two lookups in the dialogue read a plain JavaScript object literal with
    the customer's lower-cased answer as the key: `getAttendantByOption`
    (`map[opt] || null`) and the accommodation menu of step 18
    (`prefMap[msg]`). Such a read also finds the properties every object
    inherits from `Object.prototype`, so an answer naming one of them passes
    the "is this a menu option" test. This module models the reads as
    written; the rest of the model uses `Conversation.AttendantByOption`
    and `Conversation.Preference`, which read the menu's own keys only. */
module Findings {
  import opened Options
  import opened Text
  import opened Conversation
  import Handler

  /** What `obj[key]` yields on an object literal: one of its own values,
      a member inherited from `Object.prototype` (a function or the
      prototype object itself, both truthy), or `undefined`. */
  datatype Lookup<T> = Own(value: T) | Inherited | Missing

  /** The truthiness test `if (!obj[key])` applies to the value read. */
  predicate Truthy<T>(l: Lookup<T>) {
    !l.Missing?
  }

  /** The property names of `Object.prototype`. */
  predicate InheritedKey(k: string) {
    || k == "constructor" || k == "__proto__"
    || k == "hasOwnProperty" || k == "isPrototypeOf" || k == "propertyIsEnumerable"
    || k == "toString" || k == "toLocaleString" || k == "valueOf"
    || k == "__defineGetter__" || k == "__defineSetter__"
    || k == "__lookupGetter__" || k == "__lookupSetter__"
  }

  /** `getAttendantByOption(opt)` as written: `map[opt] || null` on the
      literal `{ "1": …, "2": …, "3": … }`. */
  function AttendantLookup(opt: string): Lookup<Attendant> {
    if opt in AttendantOptions then Own(AttendantOptions[opt])
    else if InheritedKey(opt) then Inherited
    else Missing
  }

  /** `prefMap[msg]` as written, on the literal with keys "1" to "5". */
  function PreferenceLookup(msg: string): Lookup<string> {
    match Preference(msg)
    case Some(choice) => Own(choice)
    case None => if InheritedKey(msg) then Inherited else Missing
  }

  /** The lookup as written lets through exactly the menu options and the
      inherited names; on a menu option it yields the attendant the
      corrected lookup yields. */
  lemma AttendantLookupAccepts(opt: string)
    ensures Truthy(AttendantLookup(opt)) <==> AttendantByOption(opt).Some? || InheritedKey(opt)
    ensures AttendantLookup(opt).Own? <==> AttendantByOption(opt).Some?
    ensures AttendantLookup(opt).Own? ==> AttendantLookup(opt).value == AttendantByOption(opt).value
  {
  }

  /** The same for the accommodation menu. */
  lemma PreferenceLookupAccepts(msg: string)
    ensures Truthy(PreferenceLookup(msg)) <==> Preference(msg).Some? || InheritedKey(msg)
    ensures PreferenceLookup(msg).Own? <==> Preference(msg).Some?
    ensures PreferenceLookup(msg).Own? ==> PreferenceLookup(msg).value == Preference(msg).value
  {
  }

  /** Lower-casing leaves no ASCII capital behind. */
  lemma {:induction false} NoCapitals(s: string)
    ensures forall i :: 0 <= i < |s| ==> !('A' <= ToLower(s)[i] <= 'Z')
  {
    forall i | 0 <= i < |s|
      ensures !('A' <= ToLower(s)[i] <= 'Z')
    {
      assert ToLower(s)[i] == LowerChar(s[i]);
    }
  }

  /** The answer is lower-cased before the lookup, so of the inherited names
      only "constructor" and "__proto__" can be reached: every other one has
      a capital letter. */
  lemma ReachableInheritedKeys(message: string)
    ensures InheritedKey(ToLower(message)) ==> ToLower(message) in {"constructor", "__proto__"}
  {
    NoCapitals(message);
    assert "hasOwnProperty"[3] == 'O' && "isPrototypeOf"[2] == 'P' && "propertyIsEnumerable"[8] == 'I';
    assert "toString"[2] == 'S' && "toLocaleString"[2] == 'L' && "valueOf"[5] == 'O';
    assert "__defineGetter__"[8] == 'G' && "__defineSetter__"[8] == 'S';
    assert "__lookupGetter__"[8] == 'G' && "__lookupSetter__"[8] == 'S';
  }

  /** A customer at step 21, 30 or 40 who types "constructor" gets past the
      option test as written, and what is read is no attendant: the lead is
      saved without attendant fields and the reply names `undefined`. The
      corrected step keeps the customer at the step and asks again. */
  lemma ConstructorPicksNoAttendant(data: Answers, localeNow: string)
    ensures var raw := Handler.Raw(Some("constructor"));
      var msg := ToLower(raw);
      && raw == msg == "constructor"
      && msg !in CancelCommands && msg !in MenuCommands
      && Truthy(AttendantLookup(msg)) && AttendantLookup(msg).Inherited?
      && !Accepts(40, raw, msg)
      && Transition(40, data, raw, msg, localeNow) == Stay(Invalid(40))
  {
    var s := "constructor";
    assert StartOf(s, 0) == 0;
    assert EndOf(s, |s|, 0) == |s|;
    assert Trim(s) == s;
    assert ToLower(s) == s;
  }

  /** A customer at step 18 who types "constructor" gets past the option
      test as written and the inherited `Object` function is stored as the
      preference. The corrected step asks again. */
  lemma ConstructorIsAPreference(data: Answers, localeNow: string)
    ensures var raw := Handler.Raw(Some("constructor"));
      var msg := ToLower(raw);
      && raw == msg == "constructor"
      && Truthy(PreferenceLookup(msg)) && PreferenceLookup(msg).Inherited?
      && !Accepts(18, raw, msg)
      && Transition(18, data, raw, msg, localeNow) == Stay(Invalid(18))
  {
    var s := "constructor";
    assert StartOf(s, 0) == 0;
    assert EndOf(s, |s|, 0) == |s|;
    assert Trim(s) == s;
    assert ToLower(s) == s;
  }
}
