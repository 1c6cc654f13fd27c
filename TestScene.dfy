/** The demo scene of `src/Scenes/TestScene.js`: a typewriter effect that
    reveals one more character of a fixed sentence every third logic update,
    and the four renderables the scene rebuilds from its state. */
module Scenes {
  import opened Canvas

  /** The sentence the scene types out. */
  const ExampleText: string := "This is some example text that will be written."

  /** The typewriter's state: the part of the sentence shown so far
      (`textState`) and the countdown to the next character (`textBuff`). */
  datatype Reveal = Reveal(shown: string, buff: int)

  /** The state the constructor sets up: nothing shown, countdown 3. */
  const Initial: Reveal := Reveal("", 3)

  /** The invariant of the typewriter: what is shown is a prefix of the
      sentence, and the countdown lies in [0, 3]. */
  ghost predicate Consistent(full: string, r: Reveal) {
    r.shown <= full && 0 <= r.buff <= 3
  }

  /** The text-reveal part of one `updateLogic` call. When the countdown has
      run out and the sentence is not complete, the next character is shown
      and the countdown reset to 3; then the countdown is decremented and
      clamped at 0. So one call never removes a character, adds at most one,
      and never leaves the countdown negative. */
  function Tick(full: string, r: Reveal): (next: Reveal)
    ensures r.shown <= next.shown && |next.shown| <= |r.shown| + 1
    ensures next.buff >= 0
  {
    var r1 := if r.buff < 1 && |r.shown| < |full|
              then Reveal(r.shown + [full[|r.shown|]], 3)
              else r;
    var b := r1.buff - 1;
    Reveal(r1.shown, if b < 0 then 0 else b)
  }

  /** The state after `n` calls starting from `r`: what was shown is kept,
      and at most `n` characters have been added to it. */
  function Ticks(full: string, r: Reveal, n: nat): (after: Reveal)
    ensures r.shown <= after.shown && |after.shown| <= |r.shown| + n
    decreases n
  {
    if n == 0 then r else Tick(full, Ticks(full, r, n - 1))
  }

  /** The state after `n` calls from the initial state, in closed form: with
      m = n - 1, the first m / 3 characters are shown (at most the whole
      sentence) and the countdown cycles 2, 1, 0 up to two calls after the
      call that completes the sentence, after which it rests at 0. Every
      such state satisfies the invariant and shows at most n / 3 characters. */
  function AfterCalls(full: string, n: nat): (r: Reveal)
    ensures Consistent(full, r)
    ensures |r.shown| <= n / 3
  {
    if n == 0 then Initial
    else
      var m := n - 1;
      if m / 3 <= |full| then Reveal(full[..m / 3], 2 - m % 3) else Reveal(full, 0)
  }

  /** One call keeps the invariant, and leaves the countdown in [0, 2]. */
  lemma TickKeepsConsistent(full: string, r: Reveal)
    requires Consistent(full, r)
    ensures Consistent(full, Tick(full, r))
    ensures 0 <= Tick(full, r).buff <= 2
  {
    if r.buff < 1 && |r.shown| < |full| {
      assert full[..|r.shown| + 1] == r.shown + [full[|r.shown|]];
    }
  }

  /** A character is added exactly when the countdown has run out on entry
      and the sentence is not yet complete; the countdown is then 2. */
  lemma TickAppendsWhen(full: string, r: Reveal)
    ensures |Tick(full, r).shown| == |r.shown| + 1 <==> r.buff < 1 && |r.shown| < |full|
    ensures |Tick(full, r).shown| == |r.shown| + 1 ==> Tick(full, r).buff == 2
  {
  }

  /** Every state reached from the initial one satisfies the invariant. */
  lemma {:induction false} TicksConsistent(full: string, n: nat)
    ensures Consistent(full, Ticks(full, Initial, n))
    decreases n
  {
    if n > 0 {
      TicksConsistent(full, n - 1);
      TickKeepsConsistent(full, Ticks(full, Initial, n - 1));
    }
  }

  /** The calls from the initial state follow the closed form exactly. */
  lemma {:induction false} TicksClosedForm(full: string, n: nat)
    ensures Ticks(full, Initial, n) == AfterCalls(full, n)
    decreases n
  {
    if n == 1 {
      assert full[..0] == "";
    } else if n > 1 {
      TicksClosedForm(full, n - 1);
      var m := n - 2;
      var q, k := m / 3, m % 3;
      assert m == 3 * q + k && 0 <= k < 3;
      assert m + 1 == 3 * (q + 1) + 0 ==> k == 2;
      if k < 2 {
        assert (m + 1) / 3 == q && (m + 1) % 3 == k + 1;
      } else {
        assert (m + 1) / 3 == q + 1 && (m + 1) % 3 == 0;
        if q < |full| {
          assert full[..q + 1] == full[..q] + [full[q]];
        } else if q == |full| {
          assert full[..q] == full;
        }
      }
    }
  }

  /** The reveal cadence: the `n`-th call shows one more character exactly
      when n is 4, 7, 10, ... up to the call that completes the sentence,
      3 * |full| + 1; every other call shows what the previous one showed. */
  lemma RevealCadence(full: string, n: nat)
    requires n >= 1
    ensures |Ticks(full, Initial, n).shown| ==
      |Ticks(full, Initial, n - 1).shown| + (if (n - 1) % 3 == 0 && 4 <= n <= 3 * |full| + 1 then 1 else 0)
  {
    TicksClosedForm(full, n);
    TicksClosedForm(full, n - 1);
    if n >= 2 {
      var m := n - 2;
      var q, k := m / 3, m % 3;
      assert m == 3 * q + k && 0 <= k < 3;
      if k < 2 {
        assert (m + 1) / 3 == q && (m + 1) % 3 == k + 1;
      } else {
        assert (m + 1) / 3 == q + 1 && (m + 1) % 3 == 0;
      }
    }
  }

  /** Once the whole sentence is shown, further calls keep it and count the
      countdown down to 0, where it stays. */
  lemma {:induction false} CompleteIsStable(full: string, r: Reveal, n: nat)
    requires r.shown == full && 0 <= r.buff
    ensures Ticks(full, r, n) == Reveal(full, if r.buff >= n then r.buff - n else 0)
    decreases n
  {
    if n > 0 {
      CompleteIsStable(full, r, n - 1);
    }
  }

  /** The first character appears on the fourth call and not before. */
  lemma FirstAppendOnFourthCall(full: string)
    requires |full| >= 1
    ensures Ticks(full, Initial, 3).shown == ""
    ensures Ticks(full, Initial, 4).shown == [full[0]]
  {
    TicksClosedForm(full, 3);
    TicksClosedForm(full, 4);
    assert full[..1] == [full[0]];
  }

  /** For the scene's own sentence (47 characters): it is complete on call
      142 and not before, and from call 144 on the countdown rests at 0. */
  lemma ExampleTextCompletion(n: nat)
    ensures |ExampleText| == 47
    ensures Ticks(ExampleText, Initial, n).shown == ExampleText <==> n >= 142
    ensures n >= 144 ==> Ticks(ExampleText, Initial, n).buff == 0
  {
    TicksClosedForm(ExampleText, n);
    if 1 <= n < 142 {
      assert |Ticks(ExampleText, Initial, n).shown| == (n - 1) / 3 < 47;
    }
  }

  /** The constructor calls the scene builds its list from. The renderable
      classes are not part of this model, so their arguments are kept in
      the positions in which the scene passes them. */
  datatype SceneItem =
    | NewColor(color: string, first: Point, second: Point)
    | NewText(color: string, font: string, at: Point, text: string)

  /** The list `updateRenderables` builds: background, FPS counter, text
      box, typed text. */
  function Frame(width: int, height: int, fps: string, textState: string): seq<SceneItem> {
    [ NewColor("#7e7e7e", Point(width, height), Point(0, 0)),
      NewText("red", "20px Arial", Point(width - 100, 100), "FPS: " + fps),
      NewColor("#000", Point(width - 200, height - 550), Point(100, 500)),
      NewText("#fff", "14px Arial", Point(120, 520), textState) ]
  }

  /** After `n` logic updates, the frame's last item types out exactly the
      first min((n - 1) / 3, 47) characters of the sentence, and its second
      item reads "FPS: " followed by the current rate. */
  lemma FrameAfterCalls(width: int, height: int, fps: string, n: nat)
    ensures var f := Frame(width, height, fps, Ticks(ExampleText, Initial, n).shown);
      |f| == 4 && f[1].NewText? && f[1].text == "FPS: " + fps &&
      f[3].NewText? && f[3].text <= ExampleText &&
      |f[3].text| == (if n == 0 then 0 else if (n - 1) / 3 <= 47 then (n - 1) / 3 else 47)
  {
    TicksClosedForm(ExampleText, n);
  }

  class TestScene {
    var width: int
    var height: int
    /** The frame rate as the scene last formatted it; opaque here. */
    var fps: string
    const exampleText: string
    var textState: string
    var textBuff: int
    var renderables: seq<SceneItem>

    ghost predicate Valid()
      reads this
    {
      Consistent(exampleText, Reveal(textState, textBuff))
    }

    function State(): Reveal
      reads this
    {
      Reveal(textState, textBuff)
    }

    /** A scene of the given size: nothing typed yet, countdown 3, and the
        frame rate 0 (which prints as "0"). */
    constructor (width: int, height: int)
      ensures Valid()
      ensures exampleText == ExampleText && State() == Initial
      ensures this.width == width && this.height == height
      ensures fps == "0" && renderables == []
    {
      this.width := width;
      this.height := height;
      fps := "0";
      exampleText := ExampleText;
      textState := "";
      textBuff := 3;
      renderables := [];
    }

    /** `updateLogic()`: records the new frame rate, then advances the
        typewriter by one step. */
    method UpdateLogic(fps: string)
      modifies this
      ensures State() == Tick(exampleText, old(State()))
      ensures old(Valid()) ==> Valid() && 0 <= textBuff <= 2
      ensures this.fps == fps
      ensures width == old(width) && height == old(height) && renderables == old(renderables)
    {
      this.fps := fps;
      if textBuff < 1 && |textState| < |exampleText| {
        textBuff := 3;
        textState := textState + [exampleText[|textState|]];
      }
      textBuff := textBuff - 1;
      if textBuff < 0 {
        textBuff := 0;
      }
      if old(Valid()) {
        TickKeepsConsistent(exampleText, old(State()));
      }
    }

    /** `updateRenderables()`: throws the previous list away and pushes the
        four items of the current frame. */
    method UpdateRenderables()
      modifies this`renderables
      ensures renderables == Frame(width, height, fps, textState)
    {
      renderables := [];
      renderables := renderables + [NewColor("#7e7e7e", Point(width, height), Point(0, 0))];
      renderables := renderables + [NewText("red", "20px Arial", Point(width - 100, 100), "FPS: " + fps)];
      renderables := renderables + [NewColor("#000", Point(width - 200, height - 550), Point(100, 500))];
      renderables := renderables + [NewText("#fff", "14px Arial", Point(120, 520), textState)];
    }
  }
}
