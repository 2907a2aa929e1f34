/**
 * The clean-up both generation routes apply to a model's raw answer before parsing it:
 * removing markdown code fences and cutting the text down to the outermost braces.
 */
module ModelOutput {
  import opened Base
  import opened Text

  const Fence := "```"
  const JsonFence := "```json"

  /** Removing every fence (non-overlapping, left to right) from `s`. */
  function DropFences(s: string): string
  {
    ReplaceAll(s, Fence, "")
  }

  /**
   * `text.replace(/```json/g, '').replace(/```/g, '').trim()`: the cleaned model text.
   * No fence survives, and the result neither starts nor ends with whitespace.
   */
  function StripFences(text: string): (clean: string)
    ensures !Occurs(clean, Fence)
    ensures clean == [] || (!IsSpace(clean[0]) && !IsSpace(clean[|clean| - 1]))
  {
    var unfenced := DropFences(ReplaceAll(text, JsonFence, ""));
    NoFenceLeft(ReplaceAll(text, JsonFence, ""));
    var clean := Trim(unfenced);
    assert !Occurs(clean, Fence) by {
      if Occurs(clean, Fence) {
        var lo := LeadingSpaces(unfenced);
        TrimSlice(unfenced);
        assert clean == unfenced[lo..lo + |clean|];
        OccursInSlice(unfenced, lo, lo + |clean|, Fence);
      }
    }
    clean
  }

  /** A backtick at the front of the result comes from a backtick at the front of the input. */
  lemma FenceFreeHead(s: string)
    requires DropFences(s) != [] && DropFences(s)[0] == '`'
    ensures s != [] && s[0] == '`'
  {
  }

  /** After the global replace, the text holds no fence. */
  lemma {:induction false} NoFenceLeft(s: string)
    ensures !Occurs(DropFences(s), Fence)
    decreases |s|
  {
    assert |Fence| == 3;
    if |s| < 3 {
    } else if s[..3] == Fence {
      assert DropFences(s) == DropFences(s[3..]);
      NoFenceLeft(s[3..]);
    } else {
      var t := s[1..];
      var r := DropFences(s);
      NoFenceLeft(t);
      assert r == [s[0]] + DropFences(t);
      forall i | 1 <= i <= |r|
        ensures !OccursAt(r, Fence, i)
      {
        if i + 3 <= |r| {
          assert r[i..i + 3] == DropFences(t)[i - 1..i + 2];
        }
        assert !OccursAt(DropFences(t), Fence, i - 1);
      }
      if |DropFences(t)| >= 2 && DropFences(t)[0] == '`' && DropFences(t)[1] == '`' {
        FenceFreeHeadPair(t);
      }
      if |r| >= 3 {
        assert r[..3] == [s[0], DropFences(t)[0], DropFences(t)[1]];
        assert s[..3] == [s[0], s[1], s[2]];
        assert Fence == ['`', '`', '`'];
      }
      assert !OccursAt(r, Fence, 0);
    }
  }

  /** Two backticks at the front of the result come from two at the front of the input. */
  lemma FenceFreeHeadPair(t: string)
    requires |DropFences(t)| >= 2 && DropFences(t)[0] == '`' && DropFences(t)[1] == '`'
    ensures |t| >= 2 && t[0] == '`' && t[1] == '`'
  {
    assert |Fence| == 3;
    if |t| >= 3 && t[..3] != Fence {
      assert DropFences(t) == [t[0]] + DropFences(t[1..]);
      FenceFreeHead(t[1..]);
    }
  }

  /**
   * The greedy cut `text.substring(first '{', last '}' + 1)`, taken only when a '}'
   * comes after the first '{'; otherwise the text unchanged.
   */
  function GreedySlice(s: string): (r: string)
    ensures var open, close := FirstIndex(s, '{'), LastIndex(s, '}');
      if open.Some? && close.Some? && close.value > open.value then
        r == s[open.value..close.value + 1] && |r| >= 2 && r[0] == '{' && r[|r| - 1] == '}'
        && '{' !in s[..open.value] && '}' !in s[close.value + 1..]
      else r == s
    ensures Occurs(s, r)
  {
    var open, close := FirstIndex(s, '{'), LastIndex(s, '}');
    if open.Some? && close.Some? && close.value > open.value then
      var r := s[open.value..close.value + 1];
      assert OccursAt(s, r, open.value);
      r
    else
      assert OccursAt(s, s, 0);
      s
  }
}
