/** Escaping for Telegram's MarkdownV2: every reserved character gets a backslash in front. */
module TelegramText {

  const RESERVED := "\\_*[]()~`>#+-=|{}.!"

  predicate Reserved(ch: char) { ch in RESERVED }

  function EscapeChar(ch: char): string { if Reserved(ch) then ['\\', ch] else [ch] }

  function Escape(text: string): string {
    if text == "" then "" else EscapeChar(text[0]) + Escape(text[1..])
  }

  /** What a reader of MarkdownV2 sees: a backslash is dropped and the next character taken as it is. */
  function Unescape(text: string): string {
    if text == "" then ""
    else if text[0] == '\\' && |text| >= 2 then [text[1]] + Unescape(text[2..])
    else [text[0]] + Unescape(text[1..])
  }

  /** Read from the left, every reserved character is escaped, and only reserved ones are. */
  predicate WellEscaped(text: string) {
    if text == "" then true
    else if text[0] == '\\' then |text| >= 2 && Reserved(text[1]) && WellEscaped(text[2..])
    else !Reserved(text[0]) && WellEscaped(text[1..])
  }

  /** No text is changed by being escaped and read, and what is sent has no unescaped reserved character. */
  lemma {:induction false} EscapeRoundTrips(text: string)
    ensures Unescape(Escape(text)) == text
    ensures WellEscaped(Escape(text))
  {
    if text != "" {
      EscapeRoundTrips(text[1..]);
      var rest := Escape(text[1..]);
      if Reserved(text[0]) {
        assert Escape(text) == ['\\', text[0]] + rest;
        assert Escape(text)[2..] == rest;
      } else {
        assert Escape(text) == [text[0]] + rest;
        assert Escape(text)[1..] == rest;
      }
      assert [text[0]] + text[1..] == text;
    }
  }

  /** The well escaped texts are exactly the outputs of Escape. */
  lemma {:induction false} EscapeOfUnescape(text: string)
    ensures WellEscaped(text) <==> Escape(Unescape(text)) == text
  {
    EscapeRoundTrips(Unescape(text));
    if WellEscaped(text) {
      EscapedIsOutput(text);
    }
  }

  lemma {:induction false} EscapedIsOutput(text: string)
    requires WellEscaped(text)
    ensures Escape(Unescape(text)) == text
  {
    if text != "" {
      if text[0] == '\\' {
        EscapedIsOutput(text[2..]);
        assert Unescape(text)[1..] == Unescape(text[2..]);
        assert ['\\', text[1]] + text[2..] == text;
      } else {
        EscapedIsOutput(text[1..]);
        assert Unescape(text)[1..] == Unescape(text[1..]);
        assert [text[0]] + text[1..] == text;
      }
    }
  }

  /** Of the characters MarkdownV2 knows, the punctuation of ASCII but for these thirteen is reserved. */
  lemma ReservedAre(ch: char)
    ensures Reserved(ch) <==>
            ('!' <= ch <= '/' || ':' <= ch <= '@' || '[' <= ch <= '`' || '{' <= ch <= '~') &&
            ch !in "\"$%&',/:;<?@^"
  {
  }

  function CountReserved(text: string): nat {
    if text == "" then 0 else CountReserved(text[1..]) + (if Reserved(text[0]) then 1 else 0)
  }

  /** Escaping adds one character for each reserved one, and leaves a text without any as it is. */
  lemma {:induction false} EscapeAdds(text: string)
    ensures |Escape(text)| == |text| + CountReserved(text)
    ensures CountReserved(text) == 0 <==> Escape(text) == text
  {
    if text != "" {
      EscapeAdds(text[1..]);
      assert [text[0]] + text[1..] == text;
    }
  }

  /** Pieces of a message can be escaped one by one. */
  lemma {:induction false} EscapeDistributes(a: string, b: string)
    ensures Escape(a + b) == Escape(a) + Escape(b)
  {
    if a == "" {
      assert a + b == b;
    } else {
      EscapeDistributes(a[1..], b);
      assert (a + b)[1..] == a[1..] + b;
    }
  }

  /** Different texts stay different. */
  lemma EscapeIsInjective(a: string, b: string)
    requires Escape(a) == Escape(b)
    ensures a == b
  {
    EscapeRoundTrips(a);
    EscapeRoundTrips(b);
  }
}
