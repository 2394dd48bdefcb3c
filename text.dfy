/** Blankness of a string attribute, as a presence validation judges it. */
module Text {

  /** The whitespace a presence check skips: space, tab, line feed, vertical tab, form feed, carriage return. */
  predicate IsSpace(c: char) {
    c == ' ' || '\t' <= c <= '\r'
  }

  /** `blank?`: the string is empty or holds whitespace only. */
  predicate Blank(s: string) {
    forall i | 0 <= i < |s| :: IsSpace(s[i])
  }
}
