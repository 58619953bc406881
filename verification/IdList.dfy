/** Candidates and matches store a list of invoice ids as one comma-separated string. */
module IdList {

  /** `",".join(ids)`. */
  function Join(ids: seq<string>): string {
    if ids == [] then ""
    else if |ids| == 1 then ids[0]
    else ids[0] + "," + Join(ids[1..])
  }

  /** `text.split(",")`: always at least one piece. */
  function Split(text: string): seq<string> {
    if text == "" then [""]
    else if text[0] == ',' then [""] + Split(text[1..])
    else
      var rest := Split(text[1..]);
      if rest == [] then [[text[0]]] else [[text[0]] + rest[0]] + rest[1..]
  }

  predicate CommaFree(id: string) {
    ',' !in id
  }

  lemma {:induction false} SplitPiece(id: string)
    requires CommaFree(id)
    ensures Split(id) == [id]
  {
    if id != "" {
      assert id[0] in id;
      assert CommaFree(id[1..]);
      SplitPiece(id[1..]);
      assert [id[0]] + id[1..] == id;
    }
  }

  lemma {:induction false} SplitAtComma(id: string, rest: string)
    requires CommaFree(id)
    ensures Split(id + "," + rest) == [id] + Split(rest)
  {
    var text := id + "," + rest;
    if id == "" {
      assert text[1..] == rest;
    } else {
      assert id[0] in id;
      assert CommaFree(id[1..]);
      SplitAtComma(id[1..], rest);
      assert text[0] == id[0] && text[1..] == id[1..] + "," + rest;
      assert [text[0]] + id[1..] == id;
    }
  }

  /** Splitting what was joined gives the list back, if it has an element and no id a comma. */
  lemma {:induction false} SplitJoin(ids: seq<string>)
    requires ids != [] && forall i :: 0 <= i < |ids| ==> CommaFree(ids[i])
    ensures Split(Join(ids)) == ids
    ensures |ids| == 2 ==> Join(ids) == ids[0] + "," + ids[1]
  {
    if |ids| == 1 {
      SplitPiece(ids[0]);
    } else {
      SplitAtComma(ids[0], Join(ids[1..]));
      SplitJoin(ids[1..]);
    }
  }
}
