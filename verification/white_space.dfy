module WhiteSpace {
  /** White space and line terminators, as String.prototype.trim and \s take them. */
  predicate IsSpace(c: char) {
    '\t' <= c <= '\r' || c == ' ' || c == '\U{00A0}' || c == '\U{1680}' || '\U{2000}' <= c <= '\U{200A}'
    || c == '\U{2028}' || c == '\U{2029}' || c == '\U{202F}' || c == '\U{205F}' || c == '\U{3000}' || c == '\U{FEFF}'
  }

  /** Tab, vertical tab, form feed, the byte order mark, the space separators of Unicode, and the four line terminators
      (ECMA-262, sections 12.2 and 12.3). */
  const SPACES :=
    "\t\U{000B}\U{000C}\U{FEFF}" +
    " \U{00A0}\U{1680}\U{2000}\U{2001}\U{2002}\U{2003}\U{2004}\U{2005}\U{2006}\U{2007}\U{2008}\U{2009}\U{200A}" +
    "\U{202F}\U{205F}\U{3000}" +
    "\n\r\U{2028}\U{2029}"

  lemma SpacesAreThese(c: char)
    ensures IsSpace(c) <==> c in SPACES
  {
  }
}
