/** The reply of the two "which chats are on the list" commands:
    `'<empty message>' if len(chats) == 0 else ', '.join(str(e) for e in chats)`.
    A Python set is iterated in an order the language leaves open, so the
    reply is specified up to that order: some enumeration of the set that
    visits every chat exactly once. */
module ChatListing {
  import opened PyText
  import opened Telegram

  const Separator := ", "

  /** `order` visits every chat of `chats`, and each exactly once. */
  ghost predicate IsEnumeration(order: seq<ChatId>, chats: set<ChatId>)
  {
    && (forall x :: x in order <==> x in chats)
    && (forall i, j :: 0 <= i < j < |order| ==> order[i] != order[j])
  }

  /** `str(e) for e in order`. */
  function Strs(order: seq<ChatId>): seq<string>
  {
    seq(|order|, i requires 0 <= i < |order| => IntToString(order[i]))
  }

  /** `', '.join(str(e) for e in order)`. */
  function Listing(order: seq<ChatId>): string
  {
    Join(Strs(order), Separator)
  }

  /** The handler's reply when the set is iterated in `order`. */
  function Reply(whenEmpty: string, order: seq<ChatId>): string
  {
    if |order| == 0 then whenEmpty else Listing(order)
  }

  /** The longest prefix of `s` without a comma. */
  function TakeUntilComma(s: string): (r: string)
    ensures |r| <= |s| && r == s[..|r|] && ',' !in r
    ensures |r| < |s| ==> s[|r|] == ','
  {
    if s == [] || s[0] == ',' then [] else [s[0]] + TakeUntilComma(s[1..])
  }

  /** Reads a listing back: the ids it names, in the order it names them. */
  function ParseListing(text: string): seq<int>
    decreases |text|
  {
    if text == [] then []
    else
      var token := TakeUntilComma(text);
      var rest := text[|token|..];
      [ParseInt(token)] + (if |rest| < |Separator| then [] else ParseListing(rest[|Separator|..]))
  }

  lemma TakeUntilCommaOfToken(token: string, rest: string)
    requires ',' !in token
    requires rest == [] || rest[0] == ','
    ensures TakeUntilComma(token + rest) == token
  {
    if token != [] {
      assert (token + rest)[1..] == token[1..] + rest;
      TakeUntilCommaOfToken(token[1..], rest);
    } else {
      assert token + rest == rest;
    }
  }

  /** The first id of a listing, and what follows it. */
  lemma ListingCons(order: seq<ChatId>)
    requires |order| > 1
    ensures Listing(order) == IntToString(order[0]) + Separator + Listing(order[1..])
  {
    assert Strs(order)[1..] == Strs(order[1..]);
  }

  /** Reading one id off the front of a listing. */
  lemma ParseListingCons(x: ChatId, tail: string)
    ensures ParseListing(IntToString(x)) == [x]
    ensures ParseListing(IntToString(x) + Separator + tail) == [x] + ParseListing(tail)
  {
    var token := IntToString(x);
    IntToStringChars(x);
    IntRoundTrip(x);
    TakeUntilCommaOfToken(token, "");
    assert token + "" == token;
    var text := token + Separator + tail;
    assert text == token + (Separator + tail);
    TakeUntilCommaOfToken(token, Separator + tail);
    assert text[|token|..] == Separator + tail;
    assert (Separator + tail)[|Separator|..] == tail;
  }

  /** The listing can be read back: it names the chats of `order`, in
      that order, each once per occurrence. */
  lemma {:induction false} ListingRoundTrip(order: seq<ChatId>)
    ensures ParseListing(Listing(order)) == order
  {
    if |order| == 1 {
      assert Listing(order) == IntToString(order[0]);
      ParseListingCons(order[0], "");
    } else if |order| > 1 {
      ListingCons(order);
      ParseListingCons(order[0], Listing(order[1..]));
      ListingRoundTrip(order[1..]);
      assert order == [order[0]] + order[1..];
    }
  }

  /** A non-empty listing starts with a digit or a minus sign. */
  lemma ListingStart(order: seq<ChatId>)
    requires order != []
    ensures |Listing(order)| > 0
    ensures Listing(order)[0] == '-' || '0' <= Listing(order)[0] <= '9'
  {
    IntToStringChars(order[0]);
    var strs := Strs(order);
    assert strs[0] == IntToString(order[0]);
    if |order| > 1 {
      assert Listing(order) == strs[0] + (Separator + Join(strs[1..], Separator));
    }
  }

  /** A reply equals the empty-set message exactly when there was nothing to
      list, as long as that message cannot be mistaken for a listing. */
  lemma ReplyIsEmptyMessageIff(whenEmpty: string, order: seq<ChatId>)
    requires whenEmpty != [] && whenEmpty[0] != '-' && !('0' <= whenEmpty[0] <= '9')
    ensures Reply(whenEmpty, order) == whenEmpty <==> order == []
  {
    if order != [] {
      ListingStart(order);
    }
  }

  /** An enumeration is as long as the set it enumerates. */
  lemma {:induction false} EnumerationSize(order: seq<ChatId>, chats: set<ChatId>)
    requires IsEnumeration(order, chats)
    ensures |order| == |chats|
  {
    if order != [] {
      var rest := order[1..];
      var first := order[0];
      assert first in order;
      assert |chats - {first}| == |chats| - 1;
      assert IsEnumeration(rest, chats - {first}) by {
        forall x | x in rest ensures x in chats - {first} {
          var k :| 0 <= k < |rest| && rest[k] == x;
          assert order[k + 1] == x;
        }
        forall x | x in chats - {first} ensures x in rest {
          var k :| 0 <= k < |order| && order[k] == x;
          assert k != 0;
          assert rest[k - 1] == x;
        }
      }
      EnumerationSize(rest, chats - {first});
    } else {
      assert forall x :: x !in order;
      assert forall x :: x !in chats;
      assert chats == {};
    }
  }

  /** The reply for a non-empty set names every chat of the set exactly
      once, and nothing else. */
  lemma ReplyNamesEachChatOnce(whenEmpty: string, order: seq<ChatId>, chats: set<ChatId>)
    requires IsEnumeration(order, chats) && chats != {}
    ensures var ids := ParseListing(Reply(whenEmpty, order));
      && |ids| == |chats|
      && (forall x :: x in ids <==> x in chats)
      && (forall i, j :: 0 <= i < j < |ids| ==> ids[i] != ids[j])
  {
    EnumerationSize(order, chats);
    ListingRoundTrip(order);
  }

  /** The listing handlers' shared body: the empty-set message when there
      are no chats, otherwise the chats joined by ", " in the order the set
      is iterated. */
  method ListChats(chats: set<ChatId>, whenEmpty: string) returns (text: string)
    ensures exists order :: IsEnumeration(order, chats) && text == Reply(whenEmpty, order)
  {
    if |chats| == 0 {
      assert IsEnumeration([], chats);
      return whenEmpty;
    }
    var rest := chats;
    var order: seq<ChatId> := [];
    text := "";
    while rest != {}
      invariant rest <= chats
      invariant forall x :: x in order <==> x in chats && x !in rest
      invariant forall i, j :: 0 <= i < j < |order| ==> order[i] != order[j]
      invariant text == Listing(order)
      decreases rest
    {
      if forall y :: y !in rest { assert false; }
      var x :| x in rest;
      assert Strs(order + [x]) == Strs(order) + [IntToString(x)];
      if order == [] {
        text := IntToString(x);
      } else {
        JoinSnoc(Strs(order), Separator, IntToString(x));
        text := text + Separator + IntToString(x);
      }
      order := order + [x];
      rest := rest - {x};
    }
    assert order != [] by {
      if forall z :: z !in chats { assert false; }
      var y :| y in chats;
      assert y in order;
    }
    assert IsEnumeration(order, chats);
  }
}
