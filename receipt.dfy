/**
 * `Receipt` in Login.java: a fixed three-line text block built from a
 * transaction's date, its identifier and a free-text detail line.
 * `ParseReceipt` is the model's inverse of the formatter.
 */
module Receipts {
  import opened Wrappers

  datatype Receipt = Receipt(date: string, transactionId: string, details: string)

  const DatePrefix: string := "Date: "
  const IdPrefix: string := "Transaction ID: "

  predicate NoNewline(s: string) {
    '\n' !in s
  }

  /**
   * `generateReceipt`: each of the three lines is followed by a line break, so the
   * text starts with the date label, ends with a line break, and adds 25 characters
   * of labels and breaks to the three fields.
   */
  function GenerateReceipt(r: Receipt): (text: string)
    ensures HasPrefix(text, DatePrefix)
    ensures |text| == |r.date| + |r.transactionId| + |r.details| + 25
    ensures text[|text| - 1] == '\n'
  {
    DatePrefix + r.date + "\n" + IdPrefix + r.transactionId + "\n" + r.details + "\n"
  }

  /** Splits off the text before the first line break; `None` when there is no line break. */
  function TakeLine(s: string): (split: Option<(string, string)>)
    ensures split.Some? ==> NoNewline(split.value.0) && s == split.value.0 + "\n" + split.value.1
    ensures split.None? ==> NoNewline(s)
  {
    if s == [] then None
    else if s[0] == '\n' then Some(("", s[1..]))
    else match TakeLine(s[1..])
      case None => None
      case Some((line, rest)) => Some(([s[0]] + line, rest))
  }

  predicate HasPrefix(s: string, prefix: string) {
    |prefix| <= |s| && s[..|prefix|] == prefix
  }

  /** Reads a receipt back: exactly three terminated lines, the first two with their labels. */
  function ParseReceipt(s: string): Option<Receipt> {
    match TakeLine(s)
    case None => None
    case Some((first, rest1)) =>
      match TakeLine(rest1)
      case None => None
      case Some((second, rest2)) =>
        match TakeLine(rest2)
        case None => None
        case Some((third, rest3)) =>
          if rest3 == "" && HasPrefix(first, DatePrefix) && HasPrefix(second, IdPrefix)
          then Some(Receipt(first[|DatePrefix|..], second[|IdPrefix|..], third))
          else None
  }

  lemma {:induction false} TakeLineOf(line: string, rest: string)
    requires NoNewline(line)
    ensures TakeLine(line + "\n" + rest) == Some((line, rest))
  {
    var s := line + "\n" + rest;
    if line == [] {
      assert s == "\n" + rest;
    } else {
      assert s[0] == line[0];
      assert s[1..] == line[1..] + "\n" + rest;
      TakeLineOf(line[1..], rest);
      assert [line[0]] + line[1..] == line;
    }
  }

  /** A receipt whose fields hold no line break is recovered from its text. */
  lemma ReceiptRoundTrip(r: Receipt)
    requires NoNewline(r.date) && NoNewline(r.transactionId) && NoNewline(r.details)
    ensures ParseReceipt(GenerateReceipt(r)) == Some(r)
  {
    var first := DatePrefix + r.date;
    var second := IdPrefix + r.transactionId;
    var rest2 := r.details + "\n";
    var rest1 := second + "\n" + rest2;
    assert GenerateReceipt(r) == first + "\n" + rest1;
    TakeLineOf(first, rest1);
    TakeLineOf(second, rest2);
    assert rest2 == r.details + "\n" + "";
    TakeLineOf(r.details, "");
    assert first[..|DatePrefix|] == DatePrefix && first[|DatePrefix|..] == r.date;
    assert second[..|IdPrefix|] == IdPrefix && second[|IdPrefix|..] == r.transactionId;
  }

  /** Every text the parser accepts is exactly the output of the formatter on what it read. */
  lemma ParsedReceiptRegenerates(s: string)
    requires ParseReceipt(s).Some?
    ensures GenerateReceipt(ParseReceipt(s).value) == s
    ensures var r := ParseReceipt(s).value; NoNewline(r.date) && NoNewline(r.transactionId) && NoNewline(r.details)
  {
    var Some((first, rest1)) := TakeLine(s);
    var Some((second, rest2)) := TakeLine(rest1);
    var Some((third, rest3)) := TakeLine(rest2);
    var date, id := first[|DatePrefix|..], second[|IdPrefix|..];
    assert first == DatePrefix + date;
    assert second == IdPrefix + id;
    assert NoNewline(date) by {
      forall i | 0 <= i < |date| ensures date[i] != '\n' {
        assert date[i] == first[|DatePrefix| + i];
      }
    }
    assert NoNewline(id) by {
      forall i | 0 <= i < |id| ensures id[i] != '\n' {
        assert id[i] == second[|IdPrefix| + i];
      }
    }
    assert s == first + "\n" + (second + "\n" + (third + "\n" + rest3));
    ReceiptLayout(Receipt(date, id, third));
  }

  /** The receipt text grouped line by line. */
  lemma ReceiptLayout(r: Receipt)
    ensures GenerateReceipt(r) == (DatePrefix + r.date) + "\n" + ((IdPrefix + r.transactionId) + "\n" + (r.details + "\n" + ""))
  {
  }

}
