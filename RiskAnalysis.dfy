/** The analysis form: a submit that notifies the shell at once and looks the
    trimmed input up in the analysis catalog later, the colour rules for the
    scores and the premium adjustment, and the display guards. The catalog
    itself is an input; it must hold a `DEFAULT` record. */
module RiskAnalysis {
  import opened Wrappers
  import opened Text
  import opened Profiles
  import App

  /** `customerInput.trim() || 'DEFAULT'`. */
  function LookupKey(input: string): (key: string)
    ensures AllSpace(input) ==> key == DefaultKey
    ensures !AllSpace(input) ==> key == Trim(input) && key != []
  {
    TrimEmptyIff(input);
    if Trim(input) == [] then DefaultKey else Trim(input)
  }

  // ---------------------------------------------------------------------
  // The lookup as written: `customerData[key] || customerData.DEFAULT`
  // ---------------------------------------------------------------------

  /** Names every plain object inherits from `Object.prototype`; indexing the
      catalog object with one of them yields a function (or, for `__proto__`,
      the prototype object), which is truthy. */
  const ObjectPrototypeMembers: set<string> := {
    "constructor", "__proto__", "toString", "toLocaleString", "valueOf",
    "hasOwnProperty", "isPrototypeOf", "propertyIsEnumerable",
    "__defineGetter__", "__defineSetter__", "__lookupGetter__", "__lookupSetter__"
  }

  /** What the property access can produce: a catalog record, or an inherited
      member that is not a record at all. */
  datatype Found = Record(profile: Profile) | InheritedMember(name: string)

  /** The lookup as the source writes it, with JavaScript's property lookup:
      own keys first, then the prototype chain, then the `||` fallback. */
  function LookupAsWritten(catalog: map<string, Profile>, key: string): (f: Found)
    requires DefaultKey in catalog
    ensures f.InheritedMember? <==> key !in catalog && key in ObjectPrototypeMembers
    ensures f.Record? ==> f.profile == LookupIn(catalog, key)
  {
    if key in catalog then Record(catalog[key])
    else if key in ObjectPrototypeMembers then InheritedMember(key)
    else Record(catalog[DefaultKey])
  }

  /** Typing `constructor` (with or without surrounding blanks) into the form
      finds `Object.prototype.constructor` instead of the `DEFAULT` record.
      Handed to `setAnalysis`, that function is called as an updater: the
      first time it stores `{}` and the results panel throws on
      `explanations.communication_score`; after an earlier analysis it
      returns that one, so the previous customer's result stays on screen. */
  lemma AsWrittenInheritedKey(catalog: map<string, Profile>)
    requires DefaultKey in catalog
    requires "constructor" !in catalog
    ensures LookupKey(" constructor ") == "constructor"
    ensures LookupAsWritten(catalog, LookupKey(" constructor ")).InheritedMember?
  {
    var core := "constructor";
    assert " constructor " == [' '] + core + [' '];
    TrimPadded(core);
    assert !AllSpace(" constructor ") by { assert !IsSpace(" constructor "[1]); }
  }

  /** The corrected lookup, `LookupIn` over own keys only, always yields a
      catalog record: the stored one for an exact key, the `DEFAULT` record
      for anything else; it agrees with the source except on inherited names. */
  lemma LookupCorrected(catalog: map<string, Profile>, input: string)
    requires DefaultKey in catalog
    ensures LookupIn(catalog, LookupKey(input)) in catalog.Values
    ensures LookupKey(input) in catalog ==> LookupIn(catalog, LookupKey(input)) == catalog[LookupKey(input)]
    ensures AllSpace(input) ==> LookupIn(catalog, LookupKey(input)) == catalog[DefaultKey]
    ensures LookupKey(input) !in ObjectPrototypeMembers ==>
              LookupAsWritten(catalog, LookupKey(input)) == Record(LookupIn(catalog, LookupKey(input)))
  {
  }

  // ---------------------------------------------------------------------
  // Colours and guards
  // ---------------------------------------------------------------------

  /** `getScoreColor`: at most 3 green, at most 7 yellow, red above. */
  function ScoreColor(score: int): (t: Tone)
    ensures t == Green <==> score <= 3
    ensures t == Yellow <==> 3 < score <= 7
    ensures t == Red <==> 7 < score
  {
    if score <= 3 then Green else if score <= 7 then Yellow else Red
  }

  /** The colour of a displayed sub-score, `getScoreColor(10 - score)`: the
      bands flip to at least 7 green, 3 to 6 yellow, below 3 red. */
  function DisplayedScoreColor(score: int): (t: Tone)
    ensures t == Green <==> score >= 7
    ensures t == Yellow <==> 3 <= score < 7
    ensures t == Red <==> score < 3
  {
    ScoreColor(10 - score)
  }

  /** The premium colour: a `-` anywhere means a discount (green), checked
      before `+` (red); anything else is grey. */
  function PremiumColor(adjustment: string): (t: Tone)
    ensures t == Green <==> '-' in adjustment
    ensures t == Red <==> '-' !in adjustment && '+' in adjustment
    ensures t == Gray <==> '-' !in adjustment && '+' !in adjustment
  {
    if '-' in adjustment then Green else if '+' in adjustment then Red else Gray
  }

  lemma PremiumColorExamples()
    ensures PremiumColor("-15%") == Green
    ensures PremiumColor("+25%") == Red
    ensures PremiumColor("Standard Rate") == Gray
    ensures PremiumColor("+-5%") == Green
  {
    assert "-15%"[0] == '-';
    assert "+25%"[0] == '+';
    assert "+-5%"[1] == '-';
  }

  /** Results show only for an existing analysis while processing is off. */
  predicate ResultsVisible(analysis: Option<Profile>, isProcessing: bool) {
    analysis.Some? && !isProcessing
  }

  /** The submit button is disabled while processing. */
  predicate SubmitDisabled(isProcessing: bool) {
    isProcessing
  }

  /** A submit raises the shell's signal at once, which disables the button
      and hides any results; the shell's completion enables it again and the
      results show exactly when there is an analysis. */
  lemma SubmitDisablesUntilComplete(s: App.AppState, analysis: Option<Profile>)
    ensures SubmitDisabled(App.RequestAnalysis(s).isProcessing)
    ensures !ResultsVisible(analysis, App.RequestAnalysis(s).isProcessing)
    ensures var t := App.CompleteAnalysis(App.RequestAnalysis(s));
            !SubmitDisabled(t.isProcessing) && (ResultsVisible(analysis, t.isProcessing) <==> analysis.Some?)
  {
  }

  // ---------------------------------------------------------------------
  // The form's state
  // ---------------------------------------------------------------------

  /** `pending` holds, oldest first, the input captured by each submit whose
      lookup timer has not fired yet. */
  datatype FormState = FormState(customerInput: string, analysis: Option<Profile>, pending: seq<string>)

  const InitialForm: FormState := FormState("", None, [])

  function SetInput(s: FormState, text: string): FormState {
    s.(customerInput := text)
  }

  /** The form's share of `handleSubmit`: the lookup is scheduled with the
      input as it is now. */
  function Submit(s: FormState): FormState {
    s.(pending := s.pending + [s.customerInput])
  }

  /** The oldest lookup timer fires. */
  function Complete(catalog: map<string, Profile>, s: FormState): FormState
    requires DefaultKey in catalog
  {
    if s.pending == [] then s
    else s.(analysis := Some(LookupIn(catalog, LookupKey(s.pending[0]))), pending := s.pending[1..])
  }

  /** A firing lookup stores a catalog record found with the key captured by
      the oldest submit, and consumes that submit only. */
  lemma CompleteStoresLookup(catalog: map<string, Profile>, s: FormState)
    requires DefaultKey in catalog && s.pending != []
    ensures var t := Complete(catalog, s);
            t.analysis.Some? && t.analysis.value in catalog.Values
            && t.analysis.value == LookupIn(catalog, LookupKey(s.pending[0]))
            && [s.pending[0]] + t.pending == s.pending
            && t.customerInput == s.customerInput
  {
  }

  /** The deferred lookup uses the input captured at submit time, even if the
      box is edited before it fires, and the results then show that record
      once processing is off. */
  lemma SubmitEditComplete(catalog: map<string, Profile>, s: FormState, edit: string)
    requires DefaultKey in catalog && s.pending == []
    ensures var t := Complete(catalog, SetInput(Submit(s), edit));
            t.analysis == Some(LookupIn(catalog, LookupKey(s.customerInput)))
            && t.pending == [] && t.customerInput == edit
            && ResultsVisible(t.analysis, false) && !ResultsVisible(t.analysis, true)
  {
    assert Submit(s).pending == [s.customerInput];
  }

  /** Until its timer fires a submit leaves the shown analysis alone. */
  lemma SubmitKeepsAnalysis(s: FormState)
    ensures Submit(s).analysis == s.analysis && Submit(s).customerInput == s.customerInput
    ensures |Submit(s).pending| == |s.pending| + 1 && Submit(s).pending[|s.pending|] == s.customerInput
  {
  }

  /** The form component's state. */
  class Form {
    const catalog: map<string, Profile>
    var customerInput: string
    var analysis: Option<Profile>
    var pending: seq<string>

    function State(): FormState
      reads this
    {
      FormState(customerInput, analysis, pending)
    }

    constructor (catalog: map<string, Profile>)
      requires DefaultKey in catalog
      ensures this.catalog == catalog && State() == InitialForm
    {
      this.catalog := catalog;
      customerInput := "";
      analysis := None;
      pending := [];
    }

    method SetCustomerInput(text: string)
      modifies this
      ensures State() == SetInput(old(State()), text)
    {
      customerInput := text;
    }

    /** `handleSubmit`: the shell's `onAnalysisRequest` runs synchronously,
      before the lookup is even scheduled. */
    method HandleSubmit(app: App.Application)
      modifies this, app
      ensures app.State() == App.RequestAnalysis(old(app.State()))
      ensures State() == Submit(old(State()))
    {
      app.HandleAnalysisRequest();
      pending := pending + [customerInput];
    }

    /** The lookup timer fires. */
    method FireLookup()
      requires DefaultKey in catalog
      modifies this
      ensures State() == Complete(catalog, old(State()))
    {
      if pending == [] {
        return;
      }
      var key := LookupKey(pending[0]);
      analysis := Some(LookupIn(catalog, key));
      pending := pending[1..];
    }
  }
}
