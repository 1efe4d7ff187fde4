/** The translation-direction decision of the `/transcribe-translate` handler:
    how one detected language code updates the remembered reference language
    and selects the target language and the direction label, and what a
    sequence of such decisions amounts to. */
module Direction {

  datatype Option<T> = None | Some(value: T)

  /** The code the language detector reports for Spanish. */
  const Spanish: string := "es"

  /** The label text that stands for Spanish in a direction label. */
  const SpanishLabel: string := "ES"

  const Arrow: string := " \U{2192} "

  /** Python truthiness of the reference slot: `None` and `""` both count as
      unset. */
  predicate HasReference(reference: Option<string>)
  {
    reference.Some? && reference.value != ""
  }

  /** The outcome of one resolution: the reference language after the call,
      the target language handed to the translator and the label shown to the
      user. */
  datatype Resolution = Resolution(reference: Option<string>, target: string, direction: string)

  /** The reference language after a detection. */
  function UpdateReference(reference: Option<string>, detected: string): (r: Option<string>)
    ensures detected != Spanish ==> r == Some(detected)
    ensures detected == Spanish ==> r == reference
  {
    if detected != Spanish then Some(detected) else reference
  }

  /** One call: update the reference first, then choose from the updated
      value. Stated case by case against the reference BEFORE the call. */
  function Step(reference: Option<string>, detected: string): (r: Resolution)
    // any non-Spanish code overwrites the slot and is translated into Spanish
    ensures detected != Spanish ==>
      r.reference == Some(detected) && r.target == Spanish &&
      r.direction == detected + " \U{2192} ES"
    // Spanish with a reference set: translate into the reference language
    ensures detected == Spanish && HasReference(reference) ==>
      r.reference == reference && r.target == reference.value &&
      r.direction == "ES \U{2192} " + reference.value
    // Spanish with no reference yet: Spanish into Spanish
    ensures detected == Spanish && !HasReference(reference) ==>
      r.reference == reference && r.target == "es" && r.direction == "es \U{2192} ES"
  {
    var updated := UpdateReference(reference, detected);
    if detected == Spanish && HasReference(updated) then
      Resolution(updated, updated.value, SpanishLabel + Arrow + updated.value)
    else
      Resolution(updated, Spanish, detected + Arrow + SpanishLabel)
  }

  /** A Spanish detection leaves the state as it was, so repeating it repeats
      its result. */
  lemma SpanishStepIsStable(reference: Option<string>)
    ensures Step(Step(reference, Spanish).reference, Spanish) == Step(reference, Spanish)
  {
  }

  /** Once a non-Spanish code has been detected, the state and the result no
      longer depend on what was remembered before. */
  lemma OtherForgetsHistory(r1: Option<string>, r2: Option<string>, detected: string)
    requires detected != Spanish
    ensures Step(r1, detected) == Step(r2, detected)
  {
  }

  // ---------------------------------------------------------------------
  // Sequences of calls, oldest first.

  /** The reference language after the detections `ds`, starting from `init`. */
  function Run(init: Option<string>, ds: seq<string>): Option<string>
  {
    if ds == [] then init
    else Step(Run(init, ds[..|ds| - 1]), ds[|ds| - 1]).reference
  }

  /** The resolutions of the calls `ds`, one per call: the slot each call
      leaves, its target and its label. `OutputAt` states what each one is. */
  function Outputs(init: Option<string>, ds: seq<string>): (out: seq<Resolution>)
    ensures |out| == |ds|
  {
    if ds == [] then []
    else
      var prior := ds[..|ds| - 1];
      Outputs(init, prior) + [Step(Run(init, prior), ds[|ds| - 1])]
  }

  /** Call `i` is resolved against the state the earlier calls left. */
  lemma {:induction false} OutputAt(init: Option<string>, ds: seq<string>, i: nat)
    requires i < |ds|
    ensures Outputs(init, ds)[i] == Step(Run(init, ds[..i]), ds[i])
  {
    var prior := ds[..|ds| - 1];
    if i < |prior| {
      OutputAt(init, prior, i);
      assert prior[..i] == ds[..i];
    } else {
      assert prior == ds[..i];
    }
  }

  /** A spell of Spanish detections leaves the reference as it was. */
  lemma {:induction false} SpanishKeepsReference(init: Option<string>, ds: seq<string>)
    requires forall k :: 0 <= k < |ds| ==> ds[k] == Spanish
    ensures Run(init, ds) == init
  {
    if ds != [] {
      SpanishKeepsReference(init, ds[..|ds| - 1]);
    }
  }

  /** Repeating a Spanish detection any number of times gives the same target
      and direction every time and leaves the state unchanged. */
  lemma {:induction false} SpanishRepeats(init: Option<string>, ds: seq<string>)
    requires forall k :: 0 <= k < |ds| ==> ds[k] == Spanish
    ensures Run(init, ds) == init
    ensures forall i :: 0 <= i < |ds| ==> Outputs(init, ds)[i] == Step(init, Spanish)
  {
    SpanishKeepsReference(init, ds);
    forall i | 0 <= i < |ds| ensures Outputs(init, ds)[i] == Step(init, Spanish) {
      OutputAt(init, ds, i);
      SpanishKeepsReference(init, ds[..i]);
    }
  }

  /** The reference language is the most recent non-Spanish detection: if
      `ds[i]` is the last one, it is what the slot holds afterwards. */
  lemma {:induction false} ReferenceIsLastOther(init: Option<string>, ds: seq<string>, i: nat)
    requires i < |ds| && ds[i] != Spanish
    requires forall j :: i < j < |ds| ==> ds[j] == Spanish
    ensures Run(init, ds) == Some(ds[i])
  {
    if i < |ds| - 1 {
      ReferenceIsLastOther(init, ds[..|ds| - 1], i);
    }
  }

  /** The history dependence of a Spanish call: it is translated into the most
      recent non-Spanish language detected before it, whenever that code is
      non-empty, however many Spanish calls came in between. */
  lemma SpanishFollowsLastOther(init: Option<string>, ds: seq<string>, i: nat, n: nat)
    requires i < n < |ds| && ds[n] == Spanish
    requires ds[i] != Spanish && ds[i] != ""
    requires forall j :: i < j < n ==> ds[j] == Spanish
    ensures Outputs(init, ds)[n].target == ds[i]
    ensures Outputs(init, ds)[n].direction == "ES \U{2192} " + ds[i]
  {
    OutputAt(init, ds, n);
    ReferenceIsLastOther(init, ds[..n], i);
  }

  /** A reference that is not Spanish never becomes Spanish: only codes other
      than "es" are ever written into the slot. */
  lemma {:induction false} ReferenceNeverSpanish(init: Option<string>, ds: seq<string>)
    requires init != Some(Spanish)
    ensures Run(init, ds) != Some(Spanish)
  {
    if ds != [] {
      ReferenceNeverSpanish(init, ds[..|ds| - 1]);
    }
  }
}
