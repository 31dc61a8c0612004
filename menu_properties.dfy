/**
 * The helpline menu text against an independent description of a numbered
 * menu: a prompt line followed by option lines, each opening with its number.
 */
module MenuProperties {
  import opened HelplineText

  /** The option numbers as characters. */
  function DigitChar(k: nat): char
    requires 1 <= k <= 9
  {
    "123456789"[k - 1]
  }

  /** Lines joined in order. */
  function Concat(lines: seq<string>): string {
    if lines == [] then "" else lines[0] + Concat(lines[1..])
  }

  /**
   * Line `k` (from 0) opens with the number k + 1, a dot and a space, and every
   * line but the last ends with a newline.
   */
  predicate NumberedOptions(lines: seq<string>) {
    && |lines| <= 9
    && (forall k | 0 <= k < |lines| ::
          |lines[k]| >= 3 && lines[k][0] == DigitChar(k + 1) && lines[k][1] == '.' && lines[k][2] == ' ')
    && (forall k | 0 <= k < |lines| - 1 :: lines[k][|lines[k]| - 1] == '\n')
  }

  const MenuOptionLines := ["1. General Support\n", "2. Suicide Prevention\n", "3. Young People\n",
                            "4. LGBTQ+ Support\n", "5. Urgent Help"]

  predicate NoNewline(s: string) {
    forall i | 0 <= i < |s| :: s[i] != '\n'
  }

  /** `line` is one line: no newline before its last character. */
  predicate OneLine(line: string) {
    forall i | 0 <= i < |line| - 1 :: line[i] != '\n'
  }

  lemma NoNewlineAppend(a: string, b: string)
    requires NoNewline(a) && NoNewline(b)
    ensures NoNewline(a + b)
  {
  }

  /** The option lines are exactly five, numbered 1 to 5 in order, each a single line. */
  lemma MenuOptionLinesNumbered()
    ensures |MenuOptionLines| == 5 && NumberedOptions(MenuOptionLines)
    ensures forall k | 0 <= k < |MenuOptionLines| :: OneLine(MenuOptionLines[k])
  {
  }

  /**
   * The menu is its prompt followed by its option lines, and the prompt is a
   * single line ending in a newline, so it holds no option of its own.
   */
  lemma HelplineMenuListsFiveOptions()
    ensures HelplineMenu == HelplinePrompt + Concat(MenuOptionLines)
    ensures |HelplinePrompt| > 0 && HelplinePrompt[|HelplinePrompt| - 1] == '\n' && OneLine(HelplinePrompt)
  {
    var p1, p2, p3 := "What type of", " support do", " you need?";
    var p4, p5, p6 := " Please select", " one option", " from below:";
    NoNewlineAppend(p1, p2);
    NoNewlineAppend(p1 + p2, p3);
    NoNewlineAppend(p1 + p2 + p3, p4);
    NoNewlineAppend(p1 + p2 + p3 + p4, p5);
    NoNewlineAppend(p1 + p2 + p3 + p4 + p5, p6);
  }
}
