// Character classes shared by the validators and the template filter.
// Python's `\s` and `str.strip()` are Unicode-aware; the model keeps to ASCII.

module Text {

  /** The ASCII characters for which Python's `str.isspace()` holds, which are
      also the ASCII characters that `\s` matches in a `str` pattern: space,
      tab, line feed, vertical tab, form feed, carriage return and the four
      separators 0x1C-0x1F. */
  predicate IsSpace(c: char) {
    c == ' ' || ('\t' <= c <= '\r') || ('\U{1C}' <= c <= '\U{1F}')
  }
}
