/** The blank-transcript test: Python's `str.strip()` with no argument,
    which removes leading and trailing characters for which `str.isspace()`
    holds. */
module Speech {

  /** The characters Python's `str.isspace()` accepts. */
  predicate IsSpace(c: char)
  {
    var n := c as int;
    (0x09 <= n <= 0x0D) || (0x1C <= n <= 0x20) || n == 0x85 || n == 0xA0 ||
    n == 0x1680 || (0x2000 <= n <= 0x200A) || n == 0x2028 || n == 0x2029 ||
    n == 0x202F || n == 0x205F || n == 0x3000
  }

  predicate IsBlank(s: string)
  {
    forall i :: 0 <= i < |s| ==> IsSpace(s[i])
  }

  function StripLeft(s: string): string
  {
    if s != [] && IsSpace(s[0]) then StripLeft(s[1..]) else s
  }

  function StripRight(s: string): string
  {
    if s != [] && IsSpace(s[|s| - 1]) then StripRight(s[..|s| - 1]) else s
  }

  function Strip(s: string): string
  {
    StripRight(StripLeft(s))
  }

  /** Removing leading space leaves nothing, or a text that starts with a
      non-space character; it leaves nothing exactly when the text is blank. */
  lemma {:induction false} StripLeftResult(s: string)
    ensures StripLeft(s) == [] <==> IsBlank(s)
    ensures StripLeft(s) != [] ==> !IsSpace(StripLeft(s)[0])
  {
    if s != [] && IsSpace(s[0]) {
      StripLeftResult(s[1..]);
      assert forall i :: 1 <= i < |s| ==> s[i] == s[1..][i - 1];
    }
  }

  /** Removing trailing space never removes a non-space first character. */
  lemma {:induction false} StripRightKeepsFirst(s: string)
    requires s != [] && !IsSpace(s[0])
    ensures StripRight(s) != [] && StripRight(s)[0] == s[0]
  {
    if IsSpace(s[|s| - 1]) {
      StripRightKeepsFirst(s[..|s| - 1]);
    }
  }

  /** `not text.strip()` holds exactly when the text is empty or all space. */
  lemma StripEmptyIffBlank(s: string)
    ensures Strip(s) == [] <==> IsBlank(s)
  {
    StripLeftResult(s);
    if StripLeft(s) != [] {
      StripRightKeepsFirst(StripLeft(s));
    }
  }

  /** The blank-transcript test as the controller performs it: strip the
      text and see whether anything is left. */
  method StripsToNothing(s: string) returns (empty: bool)
    ensures empty <==> IsBlank(s)
  {
    StripEmptyIffBlank(s);
    empty := Strip(s) == [];
  }
}
