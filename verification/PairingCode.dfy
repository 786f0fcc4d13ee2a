/** Pairing codes: eight digits, shown in two groups, accepted with any ASCII white space. */
module PairingCode {
  import opened Foundation

  const PAIRING_CODE_DIGITS := 8

  predicate IsAsciiWhitespace(c: char) {
    c == ' ' || c == '\t' || c == '\n' || c == '\r' || c as int == 12
  }

  predicate IsAsciiDigit(c: char) { '0' <= c <= '9' }

  predicate AllDigits(s: string) { forall i :: 0 <= i < |s| ==> IsAsciiDigit(s[i]) }

  predicate IsCode(s: string) { |s| == PAIRING_CODE_DIGITS && AllDigits(s) }

  function Compact(s: string): string {
    if s == "" then "" else (if IsAsciiWhitespace(s[0]) then "" else [s[0]]) + Compact(s[1..])
  }

  function NormalizeCode(value: string): Option<string> {
    var compact := Compact(value);
    if IsCode(compact) then Some(compact) else None
  }

  function FormatCode(code: string): string {
    if |code| >= 4 then code[..4] + " " + code[4..] else code
  }

  lemma {:induction false} CompactConcat(a: string, b: string)
    ensures Compact(a + b) == Compact(a) + Compact(b)
  {
    if a == "" {
      assert a + b == b;
    } else {
      assert (a + b)[1..] == a[1..] + b;
      CompactConcat(a[1..], b);
    }
  }

  lemma {:induction false} CompactDigits(s: string)
    requires AllDigits(s)
    ensures Compact(s) == s
  {
    if s != "" { CompactDigits(s[1..]); }
  }

  /** A code is shown as two groups of four digits, which normalising undoes; the compact form is accepted too. */
  lemma NormalizeUndoesFormat(code: string)
    requires IsCode(code)
    ensures NormalizeCode(FormatCode(code)) == Some(code)
    ensures NormalizeCode(code) == Some(code)
    ensures |FormatCode(code)| == 9 && FormatCode(code)[4] == ' '
    ensures AllDigits(FormatCode(code)[..4]) && AllDigits(FormatCode(code)[5..])
  {
    CompactDigits(code);
    CompactDigits(code[..4]);
    CompactDigits(code[4..]);
    CompactConcat(code[..4] + " ", code[4..]);
    CompactConcat(code[..4], " ");
    assert Compact(" ") == "" by { assert " "[1..] == ""; }
    assert Compact(FormatCode(code)) == code[..4] + "" + code[4..] == code;
  }

  /** The text is the code with white space put in anywhere. */
  predicate Spells(text: string, code: string)
    decreases |text|
  {
    if text == "" then code == ""
    else if IsAsciiWhitespace(text[0]) then Spells(text[1..], code)
    else code != "" && text[0] == code[0] && Spells(text[1..], code[1..])
  }

  lemma {:induction false} CompactSpells(text: string, code: string)
    ensures Compact(text) == code <==> Spells(text, code)
    decreases |text|
  {
    if text != "" {
      if IsAsciiWhitespace(text[0]) {
        CompactSpells(text[1..], code);
      } else if code != "" {
        CompactSpells(text[1..], code[1..]);
        assert code == [code[0]] + code[1..];
      }
    }
  }

  /** What a user types stands for a code if and only if it is eight digits with white space anywhere. */
  lemma NormalizeIff(text: string, code: string)
    ensures NormalizeCode(text) == Some(code) <==> IsCode(code) && Spells(text, code)
  {
    CompactSpells(text, code);
  }
}
