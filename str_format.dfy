/**
 * The part of Python's `str.format` that the handler's error message uses:
 * a template whose only replacement field is the positional field `{0}`,
 * formatted with one string argument.
 */
module StrFormat {

  /** The positional replacement field for the first argument. */
  const Field: string := "{0}"

  /**
   * `template.format(arg)`: every occurrence of `{0}` is replaced by `arg`,
   * every other character is copied as it is.
   */
  function FormatFields(template: string, arg: string): string
    decreases |template|
  {
    if |template| == 0 then ""
    else if |template| >= |Field| && template[..|Field|] == Field then
      arg + FormatFields(template[|Field|..], arg)
    else
      [template[0]] + FormatFields(template[1..], arg)
  }

  /** Text without an opening brace holds no replacement field and formats to itself. */
  lemma {:induction false} FormatLiteral(text: string, arg: string)
    requires '{' !in text
    ensures FormatFields(text, arg) == text
    decreases |text|
  {
    if |text| > 0 {
      assert text[0] != '{';
      assert text[1..] + [] == text[1..];
      assert '{' !in text[1..] by {
        forall i | 0 <= i < |text[1..]| ensures text[1..][i] != '{' {
          assert text[1..][i] == text[i + 1];
        }
      }
      FormatLiteral(text[1..], arg);
      assert [text[0]] + text[1..] == text;
    }
  }

  /**
   * A template with exactly one `{0}` field, surrounded by literal text,
   * formats to the literal text with the argument in place of the field.
   */
  lemma {:induction false} FormatOneField(prefix: string, suffix: string, arg: string)
    requires '{' !in prefix && '{' !in suffix
    ensures FormatFields(prefix + Field + suffix, arg) == prefix + arg + suffix
    decreases |prefix|
  {
    var template := prefix + Field + suffix;
    if |prefix| == 0 {
      assert template == Field + suffix;
      assert template[..|Field|] == Field;
      assert template[|Field|..] == suffix;
      FormatLiteral(suffix, arg);
    } else {
      var rest := prefix[1..];
      assert '{' !in rest by {
        forall i | 0 <= i < |rest| ensures rest[i] != '{' {
          assert rest[i] == prefix[i + 1];
        }
      }
      assert template[..|Field|][0] == prefix[0] != '{';
      assert template[1..] == rest + Field + suffix;
      FormatOneField(rest, suffix, arg);
      calc {
        FormatFields(template, arg);
        [template[0]] + FormatFields(template[1..], arg);
        [prefix[0]] + (rest + arg + suffix);
        { assert [prefix[0]] + rest == prefix; }
        prefix + arg + suffix;
      }
    }
  }
}
