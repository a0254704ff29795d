/** Concrete ledgers worked through by lemmas, with the exact-decimal amount parser. */
module Scenarios {
  import opened Wrappers
  import opened Amount
  import opened Aggregate
  import opened PieChart

  /** A row as `DictReader` gives it for a well-formed line of the ledger file. */
  function Line(date: string, amount: string, category: string, notes: string): Record {
    Row(map["Date" := Text(date), "Amount" := Text(amount), "Category" := Text(category), "Notes" := Text(notes)])
  }

  /** A well-formed line adds its amount to its category, or is skipped when the amount does not parse. */
  lemma ClassifyLine(parse: Parser, date: string, amount: string, category: string, notes: string)
    ensures Classify(parse, Line(date, amount, category, notes)) ==
      match parse(amount)
      case None => Skip
      case Some(v) => Add(Text(category), v)
  {
    var fields := Line(date, amount, category, notes).fields;
    assert fields[AmountColumn] == Text(amount);
    assert fields[CategoryColumn] == Text(category);
  }

  lemma SmallAmounts()
    ensures ParseAmount("10") == Some(10.0)
    ensures ParseAmount("5") == Some(5.0)
    ensures ParseAmount("3") == Some(3.0)
  {
    ParseNatText(10);
    ParseNatText(5);
    ParseNatText(3);
    assert NatText(10) == "10";
  }

  const Food1: Record := Line("2024-05-01", "10", "food", "")
  const Food2: Record := Line("2024-05-02", "5", "food", "")
  const Bus: Record := Line("2024-05-03", "3", "transport", "bus")

  lemma FoodAndTransportRows()
    ensures Classify(ParseAmount, Food1) == Add(Text("food"), 10.0)
    ensures Classify(ParseAmount, Food2) == Add(Text("food"), 5.0)
    ensures Classify(ParseAmount, Bus) == Add(Text("transport"), 3.0)
  {
    SmallAmounts();
    ClassifyLine(ParseAmount, "2024-05-01", "10", "food", "");
    ClassifyLine(ParseAmount, "2024-05-02", "5", "food", "");
    ClassifyLine(ParseAmount, "2024-05-03", "3", "transport", "bus");
  }

  lemma FoldOfThree(parse: Parser, a: Record, b: Record, c: Record)
    requires Classify(parse, a) == Add(Text("food"), 10.0)
    requires Classify(parse, b) == Add(Text("food"), 5.0)
    requires Classify(parse, c) == Add(Text("transport"), 3.0)
    ensures Scan(parse, [a, b, c]) == Done(map[Text("food") := 15.0, Text("transport") := 3.0], 3)
  {
    ScanSnoc(parse, [], a);
    assert [] + [a] == [a];
    ScanSnoc(parse, [a], b);
    assert [a] + [b] == [a, b];
    ScanSnoc(parse, [a, b], c);
    assert [a, b] + [c] == [a, b, c];
  }

  /** Food 10 and 5 and transport 3 give food 15 and transport 3 from three valid rows. */
  lemma FoodAndTransport()
    ensures Scan(ParseAmount, [Food1, Food2, Bus]) == Done(map[Text("food") := 15.0, Text("transport") := 3.0], 3)
  {
    FoodAndTransportRows();
    FoldOfThree(ParseAmount, Food1, Food2, Bus);
  }

  const Corrupted: Record := Line("2024-05-01", "abc", "food", "")

  lemma LettersRejected()
    ensures ParseAmount("abc") == None
  {
  }

  /** A row whose amount is not a number is skipped; the others still count. */
  lemma CorruptedAmountSkipped()
    ensures Scan(ParseAmount, [Corrupted, Food2]) == Done(map[Text("food") := 5.0], 1)
  {
    LettersRejected();
    FoodAndTransportRows();
    ClassifyLine(ParseAmount, "2024-05-01", "abc", "food", "");
    SkippedRowIsInvisible(ParseAmount, [], Corrupted, [Food2]);
    assert [] + [Corrupted] + [Food2] == [Corrupted, Food2];
    assert [] + [Food2] == [Food2];
    ScanSnoc(ParseAmount, [], Food2);
  }

  /** An empty file, or one with only the header, yields no chart but the "no data" message. */
  lemma EmptyLedger(parse: Parser)
    ensures forall r :: Expected(parse, Present([]), r) <==> r == NoData
  {
  }

  /** A line with only a date and an amount leaves the Category cell `None`, which becomes a key. */
  lemma ShortRowKeyedByNone()
    ensures Scan(ParseAmount, [Row(map["Date" := Text("2024-05-01"), "Amount" := Text("3"),
                                      "Category" := Null, "Notes" := Null])])
         == Done(map[Null := 3.0], 1)
  {
    SmallAmounts();
  }

  /** A line that ends before its amount makes `float(None)` raise, and the whole read is abandoned. */
  lemma MissingAmountAborts()
    ensures Scan(ParseAmount, [Line("2024-05-01", "10", "food", ""),
                               Row(map["Date" := Text("2024-05-02"), "Amount" := Null,
                                       "Category" := Null, "Notes" := Null])]).Aborted?
  {
    SmallAmounts();
  }

  /** A file whose header has no Category column aborts at its first row. */
  lemma NoCategoryColumnAborts(parse: Parser)
    ensures Scan(parse, [Row(map["Date" := Text("2024-05-01"), "Amount" := Text("10")])]).Aborted?
  {
  }
}
