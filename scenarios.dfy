/**
 * Clients of the handlers: whole exchanges whose outcome follows from the
 * handlers' contracts alone.
 */
module Scenarios {
  import opened Wrappers
  import opened Numerals
  import opened Text
  import opened Catalog
  import opened Pending
  import opened Bot
  import opened Conversations

  const Admin := 1

  /** The command arguments `42 p1` name buyer 42 and product `p1`. */
  lemma ApproveFortyTwo()
    ensures ApproveArgs(["42", "p1"]) == Some((42, "p1"))
  {
    assert "42"[..1] == "4";
    assert DigitsValue("42") == 42;
  }

  /** A fresh session in which the buyer pressed the button of `p1`. */
  method PickedP1() returns (session: UserData)
    ensures fresh(session) && session.entries == map[BuyPidKey := "p1"]
  {
    session := new UserData();
    BuyPidRoundTrip("p1");
    var picked := BuyCallback(session, "buy:p1");
  }

  /**
   * A product id entered with a tab reaches the admin in a caption whose
   * command names only the part before the tab.
   */
  lemma TabbedIdCaption()
    ensures ApproveArgs(CommandArgs(ApproveCaption(42, "a\tb"))) == Some((42, "a"))
  {
    assert "a\tb" == "a" + ['\t'] + "b";
    CaptionCutsSpacedId(42, "a", '\t', "b");
  }

  /**
   * `/setlanguage FA` from user 7: the choice is stored lower-cased under the
   * user's key, and the reply renders from the Persian texts.
   */
  method LanguageScenario(catalog: map<string, map<string, string>>) returns (reply: Msg, text: string, stored: string)
    requires "en" in catalog && "fa" in catalog && "language_set" in catalog["fa"]
    ensures reply == LanguageSet("Persian")
    ensures text == catalog["fa"]["language_set"]
    ensures stored == "fa"
  {
    var bot := new BotState(Admin, EmptyDocument);
    var session := new UserData();
    assert Lower("FA") == "fa";
    reply := bot.SetLanguage(7, session, ["FA"]);
    text := Render(catalog, session.entries, reply.Key());
    stored := bot.UserLang(7);
  }

  /** The admin adds `p1`; buyer 42 picks it and sends a photo in two sizes. */
  method ProofSubmitted() returns (bot: BotState)
    ensures fresh(bot) && bot.adminId == Admin && bot.languages == map[]
    ensures bot.products == map["p1" := NewProduct("10", "u", "pw", "S3CR3T")]
    ensures bot.pending == [PendingEntry(42, "p1", "full")]
  {
    bot := new BotState(Admin, EmptyDocument);
    var added := bot.AddProduct(Admin, ["p1", "10", "u", "pw", "S3CR3T"]);
    var session := PickedP1();
    var submitted, forwarded := bot.HandlePhoto(42, session, ["thumb", "full"]);
  }

  /**
   * The admin then approves `42 p1`: the queue is empty, 42 is the only
   * buyer, and 42 has been sent the credentials and the code hint.
   */
  method PurchaseScenario() returns (bot: BotState, delivered: seq<Outgoing>)
    ensures fresh(bot) && bot.adminId == Admin
    ensures bot.pending == []
    ensures bot.products == map["p1" := NewProduct("10", "u", "pw", "S3CR3T").(buyers := Some([42]))]
    ensures delivered == [Outgoing(42, Credentials(Some("u"), Some("pw"))), Outgoing(42, UseCode("p1", "en"))]
  {
    bot := ProofSubmitted();
    ApproveFortyTwo();
    assert FirstMatch(bot.pending, 42, "p1") == Some(0);
    var approved;
    approved, delivered := bot.Approve(Admin, ["42", "p1"]);
  }

  /**
   * After that purchase a stranger gets no code, the buyer gets the current
   * one, and approving the same pair again finds nothing to approve.
   */
  method CodeAfterPurchase(otp: string -> string) returns (strangerCode: Msg, buyerCode: Msg, again: Option<Msg>)
    ensures strangerCode == NotPurchased && buyerCode == CodeIs(otp("S3CR3T"))
    ensures again == Some(PendingNotFound)
  {
    var bot, delivered := PurchaseScenario();
    assert FindProduct(bot.products, "p1") == Some(bot.products["p1"]);
    strangerCode := bot.Code(7, ["p1"], otp);
    buyerCode := bot.Code(42, ["p1"], otp);
    ApproveFortyTwo();
    again, delivered := bot.Approve(Admin, ["42", "p1"]);
  }

  /**
   * The selection survives a photo: buyer 42 picks `p1`, which was never
   * added, and sends two photos, which queue two entries.
   */
  method TwoProofs() returns (bot: BotState)
    ensures fresh(bot) && bot.adminId == Admin && bot.products == map[] && bot.languages == map[]
    ensures bot.pending == [PendingEntry(42, "p1", "first"), PendingEntry(42, "p1", "second")]
  {
    bot := new BotState(Admin, EmptyDocument);
    var session := PickedP1();
    var r1, s1 := bot.HandlePhoto(42, session, ["first"]);
    var r2, s2 := bot.HandlePhoto(42, session, ["second"]);
  }

  /**
   * One approval of the two queued proofs resolves the earlier one, the
   * later one stays queued, and the unknown product gets a stub record.
   */
  method DuplicateProofScenario() returns (pendingAfter: seq<PendingEntry>, buyersAfter: seq<int>)
    ensures pendingAfter == [PendingEntry(42, "p1", "second")]
    ensures buyersAfter == [42]
  {
    var bot := TwoProofs();
    ApproveFortyTwo();
    assert FirstMatch(bot.pending, 42, "p1") == Some(0);
    var approved, delivered := bot.Approve(Admin, ["42", "p1"]);
    pendingAfter := bot.pending;
    assert bot.products["p1"] == Product(None, None, None, None, None, Some([42]));
    buyersAfter := BuyersOf(bot.products["p1"]);
  }

  /** `addproduct` under an id in use replaces the record, buyers included. */
  method ReAddScenario(loaded: Document) returns (buyersBefore: seq<int>, buyersAfter: seq<int>)
    requires "p1" in loaded.products && BuyersOf(loaded.products["p1"]) == [42]
    ensures buyersBefore == [42] && buyersAfter == []
  {
    var bot := new BotState(Admin, loaded);
    buyersBefore := BuyersOf(bot.products["p1"]);
    var added := bot.AddProduct(Admin, ["p1", "20", "u2", "pw2", "S2"]);
    buyersAfter := BuyersOf(bot.products["p1"]);
  }

  /** The conversation's first five steps fill a fresh session with the texts entered. */
  method DraftSession(pid: string, price: string, username: string, password: string, secret: string)
    returns (session: UserData, state: int)
    requires pid != CancelText && price != CancelText && username != CancelText
    requires password != CancelText && secret != CancelText
    ensures fresh(session) && Drafted(session.entries) && state == AskName
    ensures session.entries[PidKey] == pid && session.entries[PriceKey] == price
    ensures session.entries[UsernameKey] == username && session.entries[PasswordKey] == password
    ensures session.entries[SecretKey] == secret
  {
    var reply: Prompt;
    session := new UserData();
    state, reply := AddProductId(session, pid);
    state, reply := AddProductPrice(session, price);
    state, reply := AddProductUsername(session, username);
    state, reply := AddProductPassword(session, password);
    state, reply := AddProductSecret(session, secret);
  }

  /** Walking the conversation to the end stores a product made of the texts entered. */
  method ConversationWalk(bot: BotState, pid: string, price: string, username: string,
                          password: string, secret: string, name: string)
    returns (state: int)
    requires pid != CancelText && price != CancelText && username != CancelText
    requires password != CancelText && secret != CancelText && name != CancelText
    modifies bot`products, bot`stored
    ensures state == End
    ensures bot.products == old(bot.products)[pid := Product(Some(price), Some(username), Some(password),
                                                             Some(secret), StoredName(name), Some([]))]
  {
    var reply: Prompt;
    state, reply := AddProductMenu(bot, bot.adminId);
    var session;
    session, state := DraftSession(pid, price, username, password, secret);
    state, reply := AddProductName(bot, session, name);
  }
}
