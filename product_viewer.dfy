/** `Product3DViewer`: the background colour picked from the product's image
    path, the choice between the loaded model and a placeholder cube, and the
    error boundary that swaps in a fallback once loading has failed. The 3D
    rendering itself belongs to a foreign library and is not modelled. */
module Viewer3D {

  /** `w` is a prefix of `s`. */
  predicate StartsWith(s: string, w: string)
  {
    |w| <= |s| && s[..|w|] == w
  }

  /** `s.includes(w)`: a case-sensitive substring test, computed by trying
      every starting position. */
  predicate Includes(s: string, w: string)
    decreases |s|
  {
    StartsWith(s, w) || (|s| > 0 && Includes(s[1..], w))
  }

  /** `w` occurs in `s` starting at position `i`. */
  predicate OccursAt(s: string, w: string, i: int)
  {
    0 <= i <= |s| - |w| && s[i..i + |w|] == w
  }

  /** `w` occurs in `s` at some position. */
  ghost predicate Occurs(s: string, w: string)
  {
    exists i :: OccursAt(s, w, i)
  }

  /** An occurrence in the tail is an occurrence one position later in `s`. */
  lemma ShiftOccurrence(s: string, w: string, i: int)
    requires |s| > 0 && OccursAt(s[1..], w, i)
    ensures OccursAt(s, w, i + 1)
  {
    assert s[1..][i..i + |w|] == s[i + 1..i + 1 + |w|];
  }

  /** An occurrence past position 0 is an occurrence in the tail. */
  lemma UnshiftOccurrence(s: string, w: string, i: int)
    requires 0 < i && OccursAt(s, w, i)
    ensures OccursAt(s[1..], w, i - 1)
  {
    assert s[1..][i - 1..i - 1 + |w|] == s[i..i + |w|];
  }

  /** The computed substring test agrees with the definition. */
  lemma {:induction false} IncludesIffOccurs(s: string, w: string)
    ensures Includes(s, w) <==> Occurs(s, w)
    decreases |s|
  {
    assert OccursAt(s, w, 0) <==> StartsWith(s, w);
    if Occurs(s, w) {
      var i :| OccursAt(s, w, i);
      if 0 < i {
        UnshiftOccurrence(s, w, i);
        IncludesIffOccurs(s[1..], w);
      }
    }
    if |s| > 0 && Includes(s[1..], w) {
      IncludesIffOccurs(s[1..], w);
      var i :| OccursAt(s[1..], w, i);
      ShiftOccurrence(s, w, i);
    }
  }

  /** A word whose first letter is absent from `s` does not occur in it. */
  lemma FirstLetterAbsent(s: string, w: string)
    requires |w| > 0 && w[0] !in s
    ensures !Occurs(s, w)
  {
    forall i ensures !OccursAt(s, w, i) {
      if 0 <= i <= |s| - |w| {
        assert s[i..i + |w|][0] == s[i] && s[i] in s;
      }
    }
  }

  const Yellow: string := "#D2B481"
  const Blue: string := "#87B3C9"
  const Orange: string := "#D08778"
  const Gray: string := "#909090"
  const Black: string := "#000000"

  /** `getColorFromImagePath`: the first of Yellow, Blue, Orange, Gray that
      occurs in the path decides the colour; black when none occurs. */
  function ColorFromImagePath(path: string): (r: string)
    ensures Occurs(path, "Yellow") ==> r == Yellow
    ensures !Occurs(path, "Yellow") && Occurs(path, "Blue") ==> r == Blue
    ensures !Occurs(path, "Yellow") && !Occurs(path, "Blue") && Occurs(path, "Orange") ==> r == Orange
    ensures !Occurs(path, "Yellow") && !Occurs(path, "Blue") && !Occurs(path, "Orange") && Occurs(path, "Gray") ==> r == Gray
    ensures !Occurs(path, "Yellow") && !Occurs(path, "Blue") && !Occurs(path, "Orange") && !Occurs(path, "Gray") ==> r == Black
  {
    IncludesIffOccurs(path, "Yellow");
    IncludesIffOccurs(path, "Blue");
    IncludesIffOccurs(path, "Orange");
    IncludesIffOccurs(path, "Gray");
    if Includes(path, "Yellow") then Yellow
    else if Includes(path, "Blue") then Blue
    else if Includes(path, "Orange") then Orange
    else if Includes(path, "Gray") then Gray
    else Black
  }

  /** A path naming both yellow and blue gets the yellow colour. */
  lemma YellowWinsOverBlue()
    ensures ColorFromImagePath("/img/BlueYellow.png") == Yellow
  {
    assert OccursAt("/img/BlueYellow.png", "Yellow", 9);
  }

  /** Matching is case-sensitive: "yellow" in lower case is no match. */
  lemma LowerCaseIsNoMatch()
    ensures ColorFromImagePath("yellow.png") == Black
  {
    var p := "yellow.png";
    FirstLetterAbsent(p, "Yellow");
    FirstLetterAbsent(p, "Blue");
    FirstLetterAbsent(p, "Orange");
    FirstLetterAbsent(p, "Gray");
  }

  /** What the scene shows inside the error boundary. */
  datatype SceneContent = LoadedModel(modelPath: string) | FallbackCube

  /** The model is loaded for a non-empty path; otherwise the cube is shown. */
  function ChooseScene(modelPath: string): (c: SceneContent)
    ensures c.LoadedModel? <==> modelPath != ""
    ensures c.LoadedModel? ==> c.modelPath == modelPath
  {
    if modelPath != "" then LoadedModel(modelPath) else FallbackCube
  }

  /** What the error boundary renders. */
  datatype BoundaryOutput = Children(content: SceneContent) | ErrorFallback

  /** `ErrorBoundary`: `hasError` starts false, becomes true when a child
      throws, and nothing sets it back. */
  class ErrorBoundary {
    var hasError: bool

    constructor ()
      ensures !hasError
    {
      hasError := false;
    }

    /** `getDerivedStateFromError`. */
    method CatchError()
      modifies this
      ensures hasError
    {
      hasError := true;
    }

    function Render(modelPath: string): (r: BoundaryOutput)
      reads this
      ensures r == ErrorFallback <==> hasError
      ensures !hasError ==> r == Children(ChooseScene(modelPath))
    {
      if hasError then ErrorFallback else Children(ChooseScene(modelPath))
    }
  }
}
