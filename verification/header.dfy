/**
 * The top bar (components/Header.tsx): the bag's item-count badge, and the
 * vibe search that asks the AI provider for a description and shows it in a
 * modal.
 */
module Header {
  import opened Types
  import opened Ascii

  const ApologyMessage: string := "Sorry, my circuits are a bit fuzzy right now. Please try again later."

  /** The bag badge: absent for an empty bag, the count up to nine, then `"9+"`. */
  function Badge(cartCount: int): (r: Option<string>)
    ensures r.Some? <==> cartCount > 0
    ensures cartCount > 9 ==> r == Some("9+")
    ensures 0 < cartCount <= 9 ==> r.Some? && |r.value| == 1 && IsDigit(r.value[0])
  {
    if cartCount <= 0 then None
    else if cartCount > 9 then Some("9+")
    else Some(IntToString(cartCount))
  }

  /** Read back as a number, the badge gives the count, capped at nine: it never overstates the bag. */
  lemma BadgeReadsCount(cartCount: int)
    requires cartCount > 0
    ensures ParseInt(Badge(cartCount).value) == Some(if cartCount > 9 then 9 else cartCount)
  {
    if cartCount > 9 {
      assert "9+" == "9" + "+";
      assert AllDigits("9");
      ParseIntOfDigits("9", "+");
      assert DigitsValue("9") == 9 by {
        assert "9"[..0] == [];
      }
    } else {
      ParseIntOfIntToString(cartCount, []);
      assert IntToString(cartCount) + [] == IntToString(cartCount);
    }
  }

  /** `content.replace(/\n/g, '<br />')`: the modal shows each line break as a `<br />` tag. */
  function BreakLines(content: string): (r: string)
    ensures '\n' !in r
    ensures '\n' !in content ==> r == content
  {
    if content == [] then []
    else (if content[0] == '\n' then "<br />" else [content[0]]) + BreakLines(content[1..])
  }

  /** Line breaks are replaced piece by piece, so the replacement distributes over concatenation. */
  lemma {:induction false} BreakLinesAppend(a: string, b: string)
    ensures BreakLines(a + b) == BreakLines(a) + BreakLines(b)
  {
    if a != [] {
      var head := if a[0] == '\n' then "<br />" else [a[0]];
      assert (a + b)[0] == a[0];
      assert (a + b)[1..] == a[1..] + b;
      assert BreakLines(a + b) == head + BreakLines(a[1..] + b);
      BreakLinesAppend(a[1..], b);
      assert BreakLines(a) == head + BreakLines(a[1..]);
    } else {
      assert a + b == b;
    }
  }

  /** Each line break becomes one `<br />` tag, and the text on either side is kept. */
  lemma BreakLinesNewline(a: string, b: string)
    ensures BreakLines(a + "\n" + b) == BreakLines(a) + "<br />" + BreakLines(b)
  {
    var nl := "\n";
    assert nl[0] == '\n' && nl[1..] == [];
    assert BreakLines(nl) == "<br />";
    BreakLinesAppend(a, nl);
    BreakLinesAppend(a + nl, b);
  }

  class Header {
    var isModalOpen: bool
    var vibeQuery: string
    var isLoading: bool
    var vibeResult: string

    constructor()
      ensures !isModalOpen && vibeQuery == "" && !isLoading && vibeResult == ""
    {
      isModalOpen := false;
      vibeQuery := "";
      isLoading := false;
      vibeResult := "";
    }

    method TypeQuery(text: string)
      modifies this
      ensures vibeQuery == text
      ensures isModalOpen == old(isModalOpen) && isLoading == old(isLoading) && vibeResult == old(vibeResult)
    {
      vibeQuery := text;
    }

    /**
     * `handleSearchSubmit` up to the call: a query that trims to nothing does
     * nothing; otherwise the modal opens loading, with the old result cleared.
     */
    method Begin() returns (started: bool)
      modifies this
      ensures started <==> Trim(old(vibeQuery)) != []
      ensures !started ==>
        isModalOpen == old(isModalOpen) && isLoading == old(isLoading) && vibeResult == old(vibeResult)
      ensures started ==> isModalOpen && isLoading && vibeResult == ""
      ensures vibeQuery == old(vibeQuery)
    {
      if Trim(vibeQuery) == [] {
        return false;
      }
      isModalOpen := true;
      isLoading := true;
      vibeResult := "";
      return true;
    }

    /** The description arrives, or the call throws and the apology is shown; loading ends. */
    method Complete(reply: Reply<string>)
      modifies this
      ensures !isLoading
      ensures vibeResult == match reply case Returned(text) => text case Threw => ApologyMessage
      ensures isModalOpen == old(isModalOpen) && vibeQuery == old(vibeQuery)
    {
      match reply {
        case Returned(text) => vibeResult := text;
        case Threw => vibeResult := ApologyMessage;
      }
      isLoading := false;
    }

    /** `handleSearchSubmit` from start to finish, the provider answering `reply`. */
    method Submit(reply: Reply<string>)
      modifies this
      ensures Trim(old(vibeQuery)) == [] ==>
        isModalOpen == old(isModalOpen) && isLoading == old(isLoading) && vibeResult == old(vibeResult)
      ensures Trim(old(vibeQuery)) != [] ==>
        isModalOpen && !isLoading &&
        vibeResult == match reply case Returned(text) => text case Threw => ApologyMessage
      ensures vibeQuery == old(vibeQuery)
    {
      var started := Begin();
      if started {
        Complete(reply);
      }
    }

    /** `closeModal`: the modal closes and the query is cleared. */
    method CloseModal()
      modifies this
      ensures !isModalOpen && vibeQuery == ""
      ensures isLoading == old(isLoading) && vibeResult == old(vibeResult)
    {
      isModalOpen := false;
      vibeQuery := "";
    }
  }
}
