/**
 * `SignatureState` of the `sain` library: the ordered list of captured lines,
 * the last rendered signature image, and the `Saver` that flattens the lines
 * into lists of four numbers and rebuilds them.
 *
 * The image is a type parameter: nothing here looks inside it.
 */
module SignatureStates {
  import opened Wrappers
  import opened Geometry
  import opened SignatureLines

  /**
   * Why `Saver.restore` fails: entry number `entry` of the saved list holds
   * only `index` numbers, so reading number `index` of it throws Kotlin's
   * `IndexOutOfBoundsException`.
   */
  datatype RestoreError = IndexOutOfBounds(entry: nat, index: nat)

  /** The four numbers `[start.x, start.y, end.x, end.y]` that `save` writes for a line. */
  function Flatten(l: SignatureLine): (t: seq<int>)
    ensures |t| == 4
    ensures SignatureLine(Offset(t[0], t[1]), Offset(t[2], t[3])) == l
  {
    [l.start.x, l.start.y, l.end.x, l.end.y]
  }

  /** The line that `restore` builds from the first four numbers of an entry. */
  function Unflatten(entry: seq<int>): (l: SignatureLine)
    requires |entry| >= 4
    ensures Flatten(l) == entry[..4]
  {
    SignatureLine(Offset(entry[0], entry[1]), Offset(entry[2], entry[3]))
  }

  /**
   * `Saver.save`: one four-number entry per line, in the order of the lines.
   */
  function SaveLines(lines: seq<SignatureLine>): (saved: seq<seq<int>>)
    ensures |saved| == |lines|
    ensures forall i :: 0 <= i < |lines| ==>
      saved[i] == [lines[i].start.x, lines[i].start.y, lines[i].end.x, lines[i].end.y]
  {
    if lines == [] then [] else [Flatten(lines[0])] + SaveLines(lines[1..])
  }

  /**
   * `Saver.restore` on the list of lines: every entry becomes the line of its
   * first four numbers (numbers after the fourth are ignored); the first
   * entry with fewer than four numbers makes the whole restore throw.
   */
  function RestoreLines(saved: seq<seq<int>>): (r: Result<seq<SignatureLine>, RestoreError>)
    ensures r.Success? <==> forall i :: 0 <= i < |saved| ==> |saved[i]| >= 4
    ensures r.Success? ==>
      && |r.value| == |saved|
      && forall i :: 0 <= i < |saved| ==>
           |saved[i]| >= 4 &&
           r.value[i] == SignatureLine(Offset(saved[i][0], saved[i][1]), Offset(saved[i][2], saved[i][3]))
    ensures r.Failure? ==>
      && r.error.entry < |saved|
      && r.error.index == |saved[r.error.entry]| < 4
      && forall i :: 0 <= i < r.error.entry ==> |saved[i]| >= 4
  {
    if saved == [] then Success([])
    else if |saved[0]| < 4 then Failure(IndexOutOfBounds(0, |saved[0]|))
    else
      match RestoreLines(saved[1..])
      case Success(rest) => Success([Unflatten(saved[0])] + rest)
      case Failure(e) => Failure(IndexOutOfBounds(e.entry + 1, e.index))
  }

  /** Restoring what was saved gives back exactly the lines, in order, the empty list included. */
  lemma {:induction false} RestoreAfterSave(lines: seq<SignatureLine>)
    ensures RestoreLines(SaveLines(lines)) == Success(lines)
  {
    if lines != [] {
      var saved := SaveLines(lines);
      RestoreAfterSave(lines[1..]);
      assert saved[1..] == SaveLines(lines[1..]);
      assert Unflatten(saved[0]) == lines[0];
      assert [lines[0]] + lines[1..] == lines;
    }
  }

  /**
   * Saving what was restored gives back every entry cut to its first four
   * numbers, so a list whose entries all hold exactly four numbers survives
   * the other round trip unchanged.
   */
  lemma SaveAfterRestore(saved: seq<seq<int>>)
    requires RestoreLines(saved).Success?
    ensures |SaveLines(RestoreLines(saved).value)| == |saved|
    ensures forall i :: 0 <= i < |saved| ==> SaveLines(RestoreLines(saved).value)[i] == saved[i][..4]
    ensures (forall i :: 0 <= i < |saved| ==> |saved[i]| == 4) ==> SaveLines(RestoreLines(saved).value) == saved
  {
    var back := SaveLines(RestoreLines(saved).value);
    forall i | 0 <= i < |saved|
      ensures back[i] == saved[i][..4]
    {
      assert saved[i][..4] == [saved[i][0], saved[i][1], saved[i][2], saved[i][3]];
    }
    if forall i :: 0 <= i < |saved| ==> |saved[i]| == 4 {
      forall i | 0 <= i < |saved|
        ensures back[i] == saved[i]
      {
        assert saved[i][..4] == saved[i];
      }
    }
  }

  /** The capture state of one signature pad. */
  class SignatureState<Image> {
    /** The captured lines, oldest first (`_signatureLines`). */
    var lines: seq<SignatureLine>
    /** The last rendered signature, `None` until the first render (`_signature`). */
    var signature: Option<Image>

    /** A fresh state has no lines and no signature. */
    constructor ()
      ensures lines == [] && signature == None
    {
      lines := [];
      signature := None;
    }

    /**
     * `signatureLines`: a copy of the list.  A Dafny sequence is a value, so
     * later changes to the state cannot reach a snapshot taken here.
     */
    method SignatureLines() returns (snapshot: seq<SignatureLine>)
      ensures snapshot == lines
    {
      snapshot := lines;
    }

    /** `addSignatureLine`: appends the line at the end and leaves the signature alone. */
    method AddSignatureLine(line: SignatureLine)
      modifies this
      ensures lines == old(lines) + [line]
      ensures signature == old(signature)
    {
      lines := lines + [line];
    }

    /** `clearSignatureLines`: empties the list from any state and leaves the signature alone. */
    method ClearSignatureLines()
      modifies this
      ensures lines == []
      ensures signature == old(signature)
    {
      lines := [];
    }

    /** `updateSignature`: replaces the signature and leaves the lines alone. */
    method UpdateSignature(bitmap: Image)
      modifies this
      ensures signature == Some(bitmap)
      ensures lines == old(lines)
    {
      signature := Some(bitmap);
    }

    /** `Saver.save` applied to this state. */
    method Save() returns (saved: seq<seq<int>>)
      ensures saved == SaveLines(lines)
    {
      var snapshot := SignatureLines();
      saved := SaveLines(snapshot);
    }

    /**
     * `Saver.restore`: a new state holding the restored lines and no
     * signature, or the error that the conversion of the entries throws;
     * on an error no state is returned.
     */
    static method Restore(saved: seq<seq<int>>) returns (r: Result<SignatureState<Image>, RestoreError>)
      ensures RestoreLines(saved).Failure? ==> r == Failure(RestoreLines(saved).error)
      ensures RestoreLines(saved).Success? ==>
        && r.Success?
        && fresh(r.value)
        && r.value.lines == RestoreLines(saved).value
        && r.value.signature == None
    {
      match RestoreLines(saved)
      case Failure(e) =>
        r := Failure(e);
      case Success(restored) =>
        var state := new SignatureState<Image>();
        state.lines := state.lines + restored;
        r := Success(state);
    }
  }

  /**
   * What a save and restore boundary does to a state: the restored state has
   * exactly the same lines, and its signature is reset until the next render.
   */
  method SaveAndRestore<Image>(state: SignatureState<Image>) returns (restored: SignatureState<Image>)
    ensures fresh(restored)
    ensures restored.lines == state.lines
    ensures restored.signature == None
  {
    var saved := state.Save();
    RestoreAfterSave(state.lines);
    var r := SignatureState<Image>.Restore(saved);
    restored := r.value;
  }

  /**
   * A snapshot is not affected by later additions; clearing twice is
   * clearing once; after a clear, one addition leaves exactly that line.
   */
  method StateLifecycle<Image>(l1: SignatureLine, l2: SignatureLine, image: Image)
  {
    var state := new SignatureState<Image>();
    state.AddSignatureLine(l1);
    var snapshot := state.SignatureLines();
    state.AddSignatureLine(l2);
    assert snapshot == [l1] && state.lines == [l1, l2];
    state.UpdateSignature(image);
    state.ClearSignatureLines();
    state.ClearSignatureLines();
    assert state.lines == [] && state.signature == Some(image);
    state.AddSignatureLine(l2);
    assert state.lines == [l2];
  }
}
