/** Comparing texts as the services do: letters of either case are the same. */
module Text {

  function LowerChar(c: char): char
  {
    if 'A' <= c <= 'Z' then c - 'A' + 'a' else c
  }

  function Lower(text: string): string
  {
    seq(|text|, i requires 0 <= i < |text| => LowerChar(text[i]))
  }

  predicate EqualsIgnoreCase(a: string, b: string)
  {
    Lower(a) == Lower(b)
  }
}
