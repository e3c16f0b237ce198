/**
 * The engine's reflection, seen from the blueprint-call handler as a
 * capability: objects resolved by id, functions found by name, parameter
 * slots with flags and a type category, text imported into a slot, and the
 * call itself. On top of it: the parameter walk that turns the text after
 * the function name into slot values, and the map of output slots that the
 * handler answers with.
 */
module Reflection {
  import opened Wrappers
  import opened Tokens

  /** The type category of a slot, as the result collector distinguishes them. */
  datatype TypeTag = StrTag | NumericTag | BoolTag | OtherTag

  /**
   * A slot value. A numeric value carries the engine's canonical text for it,
   * since number formatting belongs to the engine.
   */
  datatype Value = StrValue(s: string) | NumericValue(text: string) | BoolValue(b: bool) | OtherValue

  /**
   * One property of a function, in declaration order: parameters first, then
   * locals. The flags are the engine's parameter, out, reference and return
   * flags; cppDefault is the editor metadata "CPP_Default_<name>" ("" when
   * absent); zeroText is the engine's text for the slot's zeroed value when
   * it is numeric ("0" for an integer, "0.000000" for a float, as the engine
   * renders it).
   */
  datatype Property = Property(
    name: string, isParm: bool, isOut: bool, isReference: bool, isReturn: bool,
    tag: TypeTag, cppDefault: string, zeroText: string)

  /** A function found on an object by name, with its properties. */
  datatype BlueprintFunction = BlueprintFunction(name: string, properties: seq<Property>)

  /** An object resolved from its id. */
  datatype ObjectRef = ObjectRef(handle: nat)

  /**
   * The reflection capability. processEvent answers with the parameter
   * slots the call wrote (slot index to new value); callByName is the
   * engine's own call-by-name, which only reports success or failure.
   */
  datatype Host = Host(
    objectById: string -> Option<ObjectRef>,
    nameExists: string -> bool,
    findFunction: (ObjectRef, string) -> Option<BlueprintFunction>,
    importText: (TypeTag, string) -> Option<Value>,
    processEvent: (ObjectRef, BlueprintFunction, seq<Value>) -> map<nat, Value>,
    callByName: (ObjectRef, string) -> bool)

  /** A slot the walk treats as a parameter: parameter flag set, return flag clear. */
  predicate IsPlainParm(p: Property) {
    p.isParm && !p.isReturn
  }

  /** A slot whose value is reported back: out, reference or return. */
  predicate IsOutputSlot(p: Property) {
    p.isOut || p.isReference || p.isReturn
  }

  /** Length of the leading run of plain parameters, where both walks over the slots stop. */
  function LeadingParms(ps: seq<Property>): (n: nat)
    ensures n <= |ps|
    ensures forall k :: 0 <= k < n ==> IsPlainParm(ps[k])
    ensures n < |ps| ==> !IsPlainParm(ps[n])
  {
    if ps == [] || !IsPlainParm(ps[0]) then 0 else 1 + LeadingParms(ps[1..])
  }

  /** A plain parameter within the leading run is followed by the rest of the run. */
  lemma LeadingParmsStep(ps: seq<Property>, i: nat)
    requires i <= LeadingParms(ps) && i < |ps| && IsPlainParm(ps[i])
    ensures i + 1 <= LeadingParms(ps)
  {
  }

  /** A slot the walk fills from the command text: in the leading run, neither out nor reference. */
  predicate IsInputSlot(ps: seq<Property>, j: int) {
    0 <= j < LeadingParms(ps) && !ps[j].isOut && !ps[j].isReference
  }

  /** The value of a slot in a freshly zeroed and initialised parameter buffer. */
  function InitialValue(p: Property): Value {
    match p.tag
    case StrTag => StrValue("")
    case NumericTag => NumericValue(p.zeroText)
    case BoolTag => BoolValue(false)
    case OtherTag => OtherValue
  }

  /** The parameter buffer before any argument is read: every slot at its initial value. */
  function InitialFrame(ps: seq<Property>): seq<Value> {
    seq(|ps|, j requires 0 <= j < |ps| => InitialValue(ps[j]))
  }

  /** The result of walking the parameter slots: whether an import failed, and the buffer. */
  datatype WalkOutcome = WalkOutcome(failed: bool, frame: seq<Value>)

  /**
   * The text imported into slot p and the cursor after it, when the cursor
   * stands at `remaining`: one token; with editor metadata, an empty token
   * falls back to the declared default; otherwise, the last parameter, when it
   * is a string and text is left after its token, takes all of `remaining`
   * with leading whitespace trimmed.
   */
  function ArgumentText(withEditor: bool, p: Property, isLast: bool, remaining: string): (r: (string, string))
    ensures r.1 == Token(remaining).rest
  {
    ArgumentChoice(withEditor, p, isLast, Token(remaining), TrimStart(remaining))
  }

  /** The choice ArgumentText makes, given the token read and the trimmed cursor text. */
  function ArgumentChoice(withEditor: bool, p: Property, isLast: bool, t: TokenResult, trimmed: string): (r: (string, string))
    ensures r.1 == t.rest
  {
    if withEditor && t.token == "" && p.cppDefault != "" then (p.cppDefault, t.rest)
    else if isLast && p.tag == StrTag && t.rest != "" then (trimmed, t.rest)
    else (t.token, t.rest)
  }

  /**
   * The parameter walk from slot i with the cursor at str: slots are visited
   * in declaration order while they are plain parameters; out and reference
   * slots are skipped without reading; each other slot imports its text; the
   * first failed import ends the walk. `last` is the index of the last slot
   * of the leading run.
   */
  function Walk(host: Host, withEditor: bool, ps: seq<Property>, last: int, i: nat, str: string, frame: seq<Value>): (r: WalkOutcome)
    requires |frame| == |ps| && i <= LeadingParms(ps)
    ensures |r.frame| == |frame|
    decreases |ps| - i
  {
    if i >= |ps| || !IsPlainParm(ps[i]) then WalkOutcome(false, frame)
    else
      LeadingParmsStep(ps, i);
      if ps[i].isOut || ps[i].isReference then Walk(host, withEditor, ps, last, i + 1, str, frame)
      else
        var a := ArgumentText(withEditor, ps[i], i == last, str);
        match host.importText(ps[i].tag, a.0)
        case None => WalkOutcome(true, frame)
        case Some(v) => Walk(host, withEditor, ps, last, i + 1, a.1, frame[i := v])
  }

  /** after agrees with frame on every slot before i and on every slot that is not an input slot. */
  predicate KeepsNonInputs(ps: seq<Property>, i: nat, frame: seq<Value>, after: seq<Value>) {
    |after| == |frame| && forall j :: 0 <= j < |frame| && (j < i || !IsInputSlot(ps, j)) ==> after[j] == frame[j]
  }

  /** The walk writes only input slots at or after its start: out, reference and return slots keep their values. */
  lemma {:induction false} WalkKeepsOtherSlots(host: Host, withEditor: bool, ps: seq<Property>, last: int, i: nat, str: string, frame: seq<Value>)
    requires |frame| == |ps| && i <= LeadingParms(ps)
    ensures KeepsNonInputs(ps, i, frame, Walk(host, withEditor, ps, last, i, str, frame).frame)
    decreases |ps| - i
  {
    if i >= |ps| || !IsPlainParm(ps[i]) {
    } else if ps[i].isOut || ps[i].isReference {
      LeadingParmsStep(ps, i);
      WalkKeepsOtherSlots(host, withEditor, ps, last, i + 1, str, frame);
      KeepsLower(ps, i, frame, Walk(host, withEditor, ps, last, i + 1, str, frame).frame);
    } else {
      LeadingParmsStep(ps, i);
      var a := ArgumentText(withEditor, ps[i], i == last, str);
      WalkAtInput(host, withEditor, ps, last, i, str, frame);
      match host.importText(ps[i].tag, a.0)
      case None =>
      case Some(v) =>
        var next := frame[i := v];
        WalkKeepsOtherSlots(host, withEditor, ps, last, i + 1, a.1, next);
        KeepsAfterWrite(ps, i, frame, v, Walk(host, withEditor, ps, last, i + 1, a.1, next).frame);
    }
  }

  /** Keeping the slots before i + 1 keeps those before i. */
  lemma KeepsLower(ps: seq<Property>, i: nat, frame: seq<Value>, after: seq<Value>)
    requires KeepsNonInputs(ps, i + 1, frame, after)
    ensures KeepsNonInputs(ps, i, frame, after)
  {
  }

  /** Writing input slot i, then keeping the slots before i + 1 and the non-input slots, keeps the slots before i and the non-input slots. */
  lemma KeepsAfterWrite(ps: seq<Property>, i: nat, frame: seq<Value>, v: Value, after: seq<Value>)
    requires |frame| == |ps| && IsInputSlot(ps, i)
    requires KeepsNonInputs(ps, i + 1, frame[i := v], after)
    ensures KeepsNonInputs(ps, i, frame, after)
  {
    forall j | 0 <= j < |frame| && (j < i || !IsInputSlot(ps, j))
      ensures after[j] == frame[j]
    {
      assert j != i;
      assert after[j] == frame[i := v][j];
    }
  }

  /** One step of the walk at an input slot: import the slot's text, stop on failure, go on otherwise. */
  lemma WalkAtInput(host: Host, withEditor: bool, ps: seq<Property>, last: int, i: nat, str: string, frame: seq<Value>)
    requires |frame| == |ps| && i < LeadingParms(ps) && !ps[i].isOut && !ps[i].isReference
    ensures var a := ArgumentText(withEditor, ps[i], i == last, str);
            Walk(host, withEditor, ps, last, i, str, frame) ==
              match host.importText(ps[i].tag, a.0)
              case None => WalkOutcome(true, frame)
              case Some(v) => Walk(host, withEditor, ps, last, i + 1, a.1, frame[i := v])
  {
  }

  /**
   * Reference for one slot over a list of words instead of a text cursor:
   * the slot takes the first word; no word is the empty text, or the declared
   * default with editor metadata; the last parameter, when it is a string and
   * more than one word is left, takes the remaining words joined by single
   * spaces.
   */
  function WordText(withEditor: bool, p: Property, isLast: bool, words: seq<string>): string {
    if words == [] then (if withEditor && p.cppDefault != "" then p.cppDefault else "")
    else if isLast && p.tag == StrTag && |words| > 1 then JoinSpace(words)
    else words[0]
  }

  /** The words left after one slot has read. */
  function Rest(words: seq<string>): seq<string> {
    if words == [] then [] else words[1..]
  }

  /** Reference semantics of the walk: input slot number k reads word k (WordText). */
  function WordWalk(host: Host, withEditor: bool, ps: seq<Property>, last: int, i: nat, words: seq<string>, frame: seq<Value>): (r: WalkOutcome)
    requires |frame| == |ps| && i <= LeadingParms(ps)
    ensures |r.frame| == |frame|
    decreases |ps| - i
  {
    if i >= |ps| || !IsPlainParm(ps[i]) then WalkOutcome(false, frame)
    else
      LeadingParmsStep(ps, i);
      if ps[i].isOut || ps[i].isReference then WordWalk(host, withEditor, ps, last, i + 1, words, frame)
      else
        match host.importText(ps[i].tag, WordText(withEditor, ps[i], i == last, words))
        case None => WalkOutcome(true, frame)
        case Some(v) => WordWalk(host, withEditor, ps, last, i + 1, Rest(words), frame[i := v])
  }

  /** On text made of plain words, one slot reads what the word reference says it reads. */
  lemma ArgumentTextOfSpaced(withEditor: bool, p: Property, isLast: bool, words: seq<string>)
    requires AllPlain(words)
    ensures ArgumentText(withEditor, p, isLast, Spaced(words)) == (WordText(withEditor, p, isLast, words), Spaced(Rest(words)))
  {
    TokenOfSpaced(words);
    if |words| > 1 {
      TrimSpaced(words);
      SpacedIsSpaceJoin(words[1..]);
    }
    if words != [] {
      assert PlainWord(words[0]);
    }
    ArgumentChoiceOfWords(withEditor, p, isLast, words, Token(Spaced(words)), TrimStart(Spaced(words)));
  }

  /** The argument choice for a token and trimmed text that are those of the words. */
  lemma ArgumentChoiceOfWords(withEditor: bool, p: Property, isLast: bool, words: seq<string>, t: TokenResult, trimmed: string)
    requires t == if words == [] then TokenResult(false, "", "") else TokenResult(true, words[0], Spaced(words[1..]))
    requires words != [] ==> words[0] != ""
    requires |words| > 1 ==> trimmed == JoinSpace(words) && Spaced(words[1..]) != ""
    ensures ArgumentChoice(withEditor, p, isLast, t, trimmed) == (WordText(withEditor, p, isLast, words), Spaced(Rest(words)))
  {
    if |words| == 1 {
      assert words[1..] == [];
    }
  }

  /**
   * One input slot of the two walks: when the slot reads the same text from
   * the cursor as from the words, and the walks agree from the next slot on
   * whatever value is imported, they agree from this slot.
   */
  lemma WalkStepMatches(host: Host, withEditor: bool, ps: seq<Property>, last: int, i: nat, str: string, next: string, words: seq<string>, frame: seq<Value>)
    requires |frame| == |ps| && i < LeadingParms(ps) && !ps[i].isOut && !ps[i].isReference
    requires ArgumentText(withEditor, ps[i], i == last, str) == (WordText(withEditor, ps[i], i == last, words), next)
    requires var imported := host.importText(ps[i].tag, WordText(withEditor, ps[i], i == last, words));
             imported.Some? ==>
               Walk(host, withEditor, ps, last, i + 1, next, frame[i := imported.value]) ==
               WordWalk(host, withEditor, ps, last, i + 1, Rest(words), frame[i := imported.value])
    ensures Walk(host, withEditor, ps, last, i, str, frame) == WordWalk(host, withEditor, ps, last, i, words, frame)
  {
  }

  lemma AllPlainRest(words: seq<string>)
    requires AllPlain(words)
    ensures AllPlain(Rest(words))
  {
    if words != [] {
      forall k | 0 <= k < |words| - 1 ensures PlainWord(words[1..][k]) {
        assert words[1..][k] == words[k + 1];
      }
    }
  }

  /** On text made of plain words, the cursor walk is the word walk. */
  lemma {:induction false} WalkMatchesWords(host: Host, withEditor: bool, ps: seq<Property>, last: int, i: nat, words: seq<string>, frame: seq<Value>)
    requires |frame| == |ps| && i <= LeadingParms(ps) && AllPlain(words)
    ensures Walk(host, withEditor, ps, last, i, Spaced(words), frame) == WordWalk(host, withEditor, ps, last, i, words, frame)
    decreases |ps| - i
  {
    if i >= |ps| || !IsPlainParm(ps[i]) {
    } else if ps[i].isOut || ps[i].isReference {
      LeadingParmsStep(ps, i);
      WalkMatchesWords(host, withEditor, ps, last, i + 1, words, frame);
    } else {
      LeadingParmsStep(ps, i);
      var rest := Rest(words);
      AllPlainRest(words);
      ArgumentTextOfSpaced(withEditor, ps[i], i == last, words);
      var imported := host.importText(ps[i].tag, WordText(withEditor, ps[i], i == last, words));
      if imported.Some? {
        WalkMatchesWords(host, withEditor, ps, last, i + 1, rest, frame[i := imported.value]);
      }
      WalkStepMatches(host, withEditor, ps, last, i, Spaced(words), Spaced(rest), words, frame);
    }
  }

  /** The text reported for a slot: strings as they are, numbers as text, booleans as "true"/"false", nothing otherwise. */
  function CellText(tag: TypeTag, v: Value): Option<string> {
    match (tag, v)
    case (StrTag, StrValue(s)) => Some(s)
    case (NumericTag, NumericValue(t)) => Some(t)
    case (BoolTag, BoolValue(b)) => Some(if b then "true" else "false")
    case _ => None
  }

  /** Slot j is an output slot whose value has a text form. */
  predicate Reported(ps: seq<Property>, frame: seq<Value>, j: int)
    requires |frame| == |ps|
  {
    0 <= j < |ps| && IsOutputSlot(ps[j]) && CellText(ps[j].tag, frame[j]).Some?
  }

  /** The result map after visiting the first n properties; a later slot with the same name replaces an earlier one. */
  function ResultsUpTo(ps: seq<Property>, frame: seq<Value>, n: nat): map<string, string>
    requires |frame| == |ps| && n <= |ps|
  {
    if n == 0 then map[]
    else
      var d := ResultsUpTo(ps, frame, n - 1);
      if Reported(ps, frame, n - 1) then d[ps[n - 1].name := CellText(ps[n - 1].tag, frame[n - 1]).value] else d
  }

  /**
   * The keys of the result map are exactly the names of the reported slots,
   * and each key maps to the text of the last reported slot of that name.
   */
  lemma {:induction false} ResultsUpToContents(ps: seq<Property>, frame: seq<Value>, n: nat)
    requires |frame| == |ps| && n <= |ps|
    ensures forall k :: k in ResultsUpTo(ps, frame, n) <==> exists j :: 0 <= j < n && Reported(ps, frame, j) && ps[j].name == k
    ensures forall j ::
              0 <= j < n && Reported(ps, frame, j) &&
              (forall j' :: j < j' < n && Reported(ps, frame, j') ==> ps[j'].name != ps[j].name)
              ==> ResultsUpTo(ps, frame, n)[ps[j].name] == CellText(ps[j].tag, frame[j]).value
  {
    if n > 0 {
      ResultsUpToContents(ps, frame, n - 1);
    }
  }

  /** The result map reads only the output slots: buffers that agree on them give the same map. */
  lemma {:induction false} ResultsUpToOutputsOnly(ps: seq<Property>, a: seq<Value>, b: seq<Value>, n: nat)
    requires |a| == |ps| && |b| == |ps| && n <= |ps|
    requires forall j :: 0 <= j < |ps| && IsOutputSlot(ps[j]) ==> a[j] == b[j]
    ensures ResultsUpTo(ps, a, n) == ResultsUpTo(ps, b, n)
  {
    if n > 0 {
      ResultsUpToOutputsOnly(ps, a, b, n - 1);
      assert Reported(ps, a, n - 1) == Reported(ps, b, n - 1);
    }
  }

  /** Apply the slot writes of a call to the parameter buffer; writes outside the buffer are ignored. */
  function ApplyWrites(frame: seq<Value>, writes: map<nat, Value>): seq<Value> {
    seq(|frame|, j requires 0 <= j < |frame| => if j in writes then writes[j] else frame[j])
  }
}
