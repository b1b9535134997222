/** The feedback list: each item is shown as its own text, coloured by a keyword rule
    in which the "good" keywords win over the "caution" keywords. */
module Feedback {
  import opened Text

  /** "good" and "stable". */
  const GoodKeywords: seq<string> := ["좋습니다", "안정적"]
  /** "caution" and "careful". */
  const CautionKeywords: seq<string> := ["주의", "조심"]

  /** An upper-case hexadecimal digit. */
  predicate IsHexDigit(ch: char) {
    '0' <= ch <= '9' || 'A' <= ch <= 'F'
  }

  datatype Color = Green | Yellow | Red {
    /** The colour as written for `Color.parseColor`: a "#RRGGBB" code. */
    function Hex(): (h: string)
      ensures |h| == 7 && h[0] == '#'
      ensures forall i :: 1 <= i < |h| ==> IsHexDigit(h[i])
    {
      match this
      case Green => "#2E7D32"
      case Yellow => "#F9A825"
      case Red => "#C62828"
    }
  }

  /** Each colour has its own code: the three colours stay distinguishable on screen. */
  lemma HexInjective(c1: Color, c2: Color)
    requires c1.Hex() == c2.Hex()
    ensures c1 == c2
  {
  }

  /** Some keyword of the list occurs in the text. */
  ghost predicate Mentions(text: string, keywords: seq<string>) {
    exists k :: 0 <= k < |keywords| && Occurs(text, keywords[k])
  }

  /** The `when` chain of `bind`: the good test first, then the caution test, else red. */
  function Classify(text: string): (c: Color)
    ensures c == Green <==> Mentions(text, GoodKeywords)
    ensures c == Yellow <==> !Mentions(text, GoodKeywords) && Mentions(text, CautionKeywords)
    ensures c == Red <==> !Mentions(text, GoodKeywords) && !Mentions(text, CautionKeywords)
  {
    ContainsIsOccurs(text, GoodKeywords[0]);
    ContainsIsOccurs(text, GoodKeywords[1]);
    ContainsIsOccurs(text, CautionKeywords[0]);
    ContainsIsOccurs(text, CautionKeywords[1]);
    if Contains(text, "좋습니다") || Contains(text, "안정적") then Green
    else if Contains(text, "주의") || Contains(text, "조심") then Yellow
    else Red
  }

  /** Text containing a good keyword is green even when it also contains a caution keyword. */
  lemma GoodWinsOverCaution(text: string)
    requires Mentions(text, GoodKeywords) && Mentions(text, CautionKeywords)
    ensures Classify(text) == Green
  {
  }

  /** What one row shows: its text and its text colour. */
  datatype Row = Row(text: string, color: Color)

  /** `ViewHolder.bind`: the text is shown exactly as given. */
  function Bind(text: string): (r: Row)
    ensures r.text == text
    ensures r.color == Classify(text)
  {
    Row(text, Classify(text))
  }

  /** `FeedbackAdapter(items)`. */
  datatype FeedbackAdapter = FeedbackAdapter(items: seq<string>) {

    /** `getItemCount`. */
    function ItemCount(): (n: nat)
      ensures n == |items|
    {
      |items|
    }

    /** `onBindViewHolder`: the row at a position the list asks for shows that item. */
    function BindViewHolder(position: nat): (r: Row)
      requires position < ItemCount()
      ensures r.text == items[position]
      ensures r.color == Classify(items[position])
    {
      Bind(items[position])
    }

    /** All rows the list displays, top to bottom. */
    function Rows(): (rows: seq<Row>)
      ensures |rows| == ItemCount()
      ensures forall i :: 0 <= i < |rows| ==> rows[i] == BindViewHolder(i)
    {
      seq(|items|, i requires 0 <= i < |items| => Bind(items[i]))
    }
  }
}
