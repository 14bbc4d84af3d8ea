/**
 * The purchase workflow of `bot.py`. The module-level `data` document becomes
 * the class `BotState`, each user's `context.user_data` the class `UserData`,
 * and each Telegram handler a method. A handler returns the reply it sends to
 * its caller (`None` when it returns silently) and the messages it sends to
 * other chats; the texts themselves are left to `Render`.
 */
module Bot {
  import opened Wrappers
  import opened Numerals
  import opened Text
  import opened Lists
  import opened Catalog
  import opened Pending

  /** The languages `MESSAGES` has texts for. */
  const MessageLanguages: set<string> := {"en", "fa"}

  /** The `user_data` keys the purchase handlers use. */
  const BuyPidKey := "buy_pid"
  const LangKey := "lang"

  /** A reply to the caller: a key of `MESSAGES` with its format arguments. */
  datatype Msg =
    | SendPaymentProof | PaymentSubmitted
    | ApproveUsage | Approved | PendingNotFound
    | CodeUsage | ProductNotFound | NotPurchased | NoTotp | CodeIs(code: string)
    | AddproductUsage | ProductAdded
    | EditproductUsage | InvalidField | ProductUpdated
    | ResendUsage | InvalidUserId | NoBuyers | CredentialsResent
    | StatsUsage | PriceTotalBuyers(price: Option<string>, total: nat)
    | BuyersUsage | BuyersList(list: seq<int>) | NoBuyersList
    | DeletebuyerUsage | BuyerRemoved | BuyerNotFound
    | ClearbuyersUsage | AllBuyersRemoved
    | LanguageUsage | LanguageSet(languageName: string) | LanguagesSupported
  {
    /** The `MESSAGES` key the reply is rendered from. */
    function Key(): string {
      match this
      case SendPaymentProof => "send_payment_proof"
      case PaymentSubmitted => "payment_submitted"
      case ApproveUsage => "approve_usage"
      case Approved => "approved"
      case PendingNotFound => "pending_not_found"
      case CodeUsage => "code_usage"
      case ProductNotFound => "product_not_found"
      case NotPurchased => "not_purchased"
      case NoTotp => "no_totp"
      case CodeIs(_) => "code"
      case AddproductUsage => "addproduct_usage"
      case ProductAdded => "product_added"
      case EditproductUsage => "editproduct_usage"
      case InvalidField => "invalid_field"
      case ProductUpdated => "product_updated"
      case ResendUsage => "resend_usage"
      case InvalidUserId => "invalid_user_id"
      case NoBuyers => "no_buyers"
      case CredentialsResent => "credentials_resent"
      case StatsUsage => "stats_usage"
      case PriceTotalBuyers(_, _) => "price_total_buyers"
      case BuyersUsage => "buyers_usage"
      case BuyersList(_) => "buyers_list"
      case NoBuyersList => "no_buyers_list"
      case DeletebuyerUsage => "deletebuyer_usage"
      case BuyerRemoved => "buyer_removed"
      case BuyerNotFound => "buyer_not_found"
      case ClearbuyersUsage => "clearbuyers_usage"
      case AllBuyersRemoved => "all_buyers_removed"
      case LanguageUsage => "language_usage"
      case LanguageSet(_) => "language_set"
      case LanguagesSupported => "languages_supported"
    }
  }

  /** What a handler sends to a chat other than the caller's. */
  datatype Body =
    | Credentials(username: Option<string>, password: Option<string>)
    | UseCode(pid: string, lang: string)
    | ProofPhoto(fileId: string, caption: string)

  datatype Outgoing = Outgoing(to: int, body: Body)

  /** The persisted document: `{'products': ..., 'pending': ..., 'languages': ...}`. */
  datatype Document = Document(
    products: map<string, Product>,
    pending: seq<PendingEntry>,
    languages: map<string, string>)

  /** What `load_data` returns when there is no data file. */
  const EmptyDocument := Document(map[], [], map[])

  /**
   * `tr(context, key)` without the `.format` step: the caller's language
   * (English by default), else English, else the key itself.
   */
  function Render(catalog: map<string, map<string, string>>, userData: map<string, string>, key: string): (r: string)
    requires "en" in catalog
    ensures var lang := Get(userData, LangKey, "en");
      && (lang in catalog && key in catalog[lang] ==> r == catalog[lang][key])
      && ((lang !in catalog || key !in catalog[lang]) && key in catalog["en"] ==> r == catalog["en"][key])
      && ((lang !in catalog || key !in catalog[lang]) && key !in catalog["en"] ==> r == key)
  {
    var lang := Get(userData, LangKey, "en");
    var msgs := Get(catalog, lang, catalog["en"]);
    Get(msgs, key, Get(catalog["en"], key, key))
  }

  /** `context.args`, which Telegram sets to `text.split()[1:]`: the words after the command itself. */
  function CommandArgs(text: string): (args: seq<string>)
    ensures forall i :: 0 <= i < |args| ==> args[i] != [] && NoSpace(args[i])
    ensures |Words(text)| > 0 ==> args == Words(text)[1..]
    ensures |Words(text)| == 0 ==> args == []
  {
    var words := Words(text);
    if |words| == 0 then [] else words[1..]
  }

  /** The caption of the proof photo sent to the admin: a ready `/approve` command. */
  function ApproveCaption(uid: int, pid: string): (caption: string)
    ensures caption == Join(["/approve", IntToString(uid), pid], ' ')
  {
    var number := IntToString(uid);
    var words := ["/approve", number, pid];
    assert words[1..][1..] == [pid];
    assert Join(words[1..], ' ') == number + [' '] + pid;
    assert "/approve " + number + " " + pid == "/approve" + [' '] + (number + [' '] + pid);
    "/approve " + number + " " + pid
  }

  /** `int(context.args[0])` and `context.args[1]` of `approve`; `None` where it raises. */
  function ApproveArgs(args: seq<string>): (r: Option<(int, string)>)
    ensures r.Some? <==> |args| >= 2 && ParseInt(args[0]).Some?
    ensures r.Some? ==> ParseInt(args[0]) == Some(r.value.0) && r.value.1 == args[1]
  {
    if |args| < 2 then None
    else match ParseInt(args[0])
      case None => None
      case Some(uid) => Some((uid, args[1]))
  }

  /**
   * `query.data.split(':')[1]` of `buy_callback`; `None` where it raises
   * `IndexError`, which is exactly when the data holds no colon.
   */
  function BuyPid(callbackData: string): (r: Option<string>)
    ensures r.Some? <==> ':' in callbackData
    ensures r.Some? ==> ':' !in r.value
  {
    var parts := Split(callbackData, ':');
    if |parts| > 1 then
      assert callbackData[|parts[0]|] == ':' by {
        assert callbackData == parts[0] + [':'] + Join(parts[1..], ':');
      }
      Some(parts[1])
    else
      assert callbackData == parts[0];
      None
  }

  /** The button data `buy:<pid>` gives back the product id, if the id has no colon. */
  lemma BuyPidRoundTrip(pid: string)
    requires ':' !in pid
    ensures BuyPid("buy:" + pid) == Some(pid)
  {
    SplitAfterHead("buy", ':', pid);
    assert "buy:" + pid == "buy" + [':'] + pid;
    SplitWithoutSeparator(pid, ':');
  }

  /** An id containing a colon is cut at it: the buyer is recorded under a shorter id. */
  lemma BuyPidCutsAtColon(pid: string, rest: string)
    requires ':' !in pid
    ensures BuyPid("buy:" + pid + ":" + rest) == Some(pid)
  {
    SplitAfterHead("buy", ':', pid + ":" + rest);
    assert "buy:" + pid + ":" + rest == "buy" + [':'] + (pid + ":" + rest);
    SplitAfterHead(pid, ':', rest);
    assert pid + ":" + rest == pid + [':'] + rest;
  }

  /** The printed form of a user id holds no whitespace. */
  lemma IdHasNoSpace(uid: int)
    ensures NoSpace(IntToString(uid))
  {
  }

  /**
   * The caption sent with a proof photo, issued as a command, makes `approve`
   * look for exactly the submitted pair when the product id is one word.
   * `handle_photo` builds captions only for a non-empty id.
   */
  lemma CaptionApprovesSubmission(uid: int, pid: string)
    requires pid != [] && NoSpace(pid)
    ensures ApproveArgs(CommandArgs(ApproveCaption(uid, pid))) == Some((uid, pid))
  {
    var number := IntToString(uid);
    IdHasNoSpace(uid);
    WordsOfJoin(["/approve", number, pid]);
    ParseIntToString(uid);
  }

  /**
   * An id holding whitespace is cut at it: the caption's command makes
   * `approve` look for the id's first word, so the submission it was built
   * for is never matched from its own caption.
   */
  lemma CaptionCutsSpacedId(uid: int, head: string, c: char, tail: string)
    requires head != [] && NoSpace(head) && IsSpace(c)
    ensures ApproveArgs(CommandArgs(ApproveCaption(uid, head + [c] + tail))) == Some((uid, head))
  {
    var number := IntToString(uid);
    IdHasNoSpace(uid);
    var pid := head + [c] + tail;
    assert ApproveCaption(uid, pid) == "/approve" + [' '] + (number + [' '] + pid);
    WordsAfterWord("/approve", ' ', number + [' '] + pid);
    WordsAfterWord(number, ' ', pid);
    WordsAfterWord(head, c, tail);
    ParseIntToString(uid);
  }

  /** The buyers `resend` writes to: all of them, or the one requested if it is a buyer. */
  function ResendTargets(buyers: seq<int>, requested: Option<int>): (targets: seq<int>)
    ensures forall x :: x in targets ==> x in buyers
    ensures requested.None? ==> targets == buyers
    ensures requested.Some? ==> |targets| <= 1 && (targets != [] <==> requested.value in buyers)
    ensures requested.Some? && targets != [] ==> targets[0] == requested.value
  {
    match requested
    case None => buyers
    case Some(uid) => if uid in buyers then [uid] else []
  }

  /** `context.user_data`: one user's session, a dictionary of strings. */
  class UserData {
    var entries: map<string, string>

    constructor ()
      ensures entries == map[]
    {
      entries := map[];
    }
  }

  /** `buy_callback`: remembers which product the next photo pays for. */
  method BuyCallback(session: UserData, callbackData: string) returns (reply: Option<Msg>)
    modifies session
    ensures BuyPid(callbackData).None? ==> reply == None && unchanged(session)
    ensures BuyPid(callbackData).Some? ==>
      && session.entries == old(session.entries)[BuyPidKey := BuyPid(callbackData).value]
      && reply == Some(SendPaymentProof)
  {
    var pid := BuyPid(callbackData);
    if pid.None? {
      return None;
    }
    session.entries := session.entries[BuyPidKey := pid.value];
    reply := Some(SendPaymentProof);
  }

  /** The global `data` document, the configured admin, and the handlers that act on them. */
  class BotState {
    const adminId: int
    var products: map<string, Product>
    var pending: seq<PendingEntry>
    var languages: map<string, string>
    /** What `save_data` last wrote to the data file. */
    var stored: Document

    function Doc(): Document
      reads this
    {
      Document(products, pending, languages)
    }

    /** The data file holds the in-memory document. */
    predicate Saved()
      reads this
    {
      stored == Doc()
    }

    /** No product lists a buyer twice. */
    predicate BuyersDistinct()
      reads this
    {
      forall pid :: pid in products ==> NoDuplicates(BuyersOf(products[pid]))
    }

    /** `user_lang(user_id)`: the stored language of a user, English by default. */
    function UserLang(uid: int): (lang: string)
      reads this
      ensures IntToString(uid) in languages ==> lang == languages[IntToString(uid)]
      ensures IntToString(uid) !in languages ==> lang == "en"
    {
      Get(languages, IntToString(uid), "en")
    }

    /** The state after `data = load_data()` with the configured `ADMIN_ID`. */
    constructor (adminId: int, loaded: Document)
      ensures this.adminId == adminId && Doc() == loaded && Saved()
    {
      this.adminId := adminId;
      products, pending, languages := loaded.products, loaded.pending, loaded.languages;
      stored := loaded;
    }

    /** `save_data(data)`: writes the document out; the in-memory state is untouched. */
    method Save()
      modifies this`stored
      ensures Saved()
    {
      stored := Doc();
    }

    /** `setlanguage`: stores the caller's language choice in the session and in `languages`. */
    method SetLanguage(caller: int, session: UserData, args: seq<string>) returns (reply: Msg)
      modifies this`languages, this`stored, session
      ensures products == old(products) && pending == old(pending)
      ensures |args| == 0 ==> reply == LanguageUsage && unchanged(this) && unchanged(session)
      ensures |args| > 0 && Lower(args[0]) !in MessageLanguages ==>
        reply == LanguagesSupported && unchanged(this) && unchanged(session)
      ensures |args| > 0 && Lower(args[0]) in MessageLanguages ==>
        var lang := Lower(args[0]);
        && session.entries == old(session.entries)[LangKey := lang]
        && languages == old(languages)[IntToString(caller) := lang]
        && UserLang(caller) == lang
        && (forall u :: u != caller ==> UserLang(u) == old(UserLang(u)))
        && Saved()
        && reply == LanguageSet(if lang == "en" then "English" else "Persian")
    {
      if |args| == 0 {
        return LanguageUsage;
      }
      var lang := Lower(args[0]);
      if lang !in MessageLanguages {
        return LanguagesSupported;
      }
      session.entries := session.entries[LangKey := lang];
      languages := languages[IntToString(caller) := lang];
      Save();
      forall u | u != caller
        ensures UserLang(u) == old(UserLang(u))
      {
        IntToStringInjective(u, caller);
      }
      reply := LanguageSet(if lang == "en" then "English" else "Persian");
    }

    /**
     * `handle_photo`: with a product selected, queues the proof (the largest
     * photo size, the last of `photoIds`) and forwards it to the admin. The
     * selection stays in the session, so a second photo queues a second entry.
     */
    method HandlePhoto(caller: int, session: UserData, photoIds: seq<string>) returns (reply: Option<Msg>, sent: seq<Outgoing>)
      requires |photoIds| > 0
      modifies this`pending, this`stored
      ensures products == old(products) && languages == old(languages)
      ensures Get(session.entries, BuyPidKey, "") == "" ==> reply == None && sent == [] && unchanged(this)
      ensures Get(session.entries, BuyPidKey, "") != "" ==>
        var pid := session.entries[BuyPidKey];
        var fileId := photoIds[|photoIds| - 1];
        && pending == old(pending) + [PendingEntry(caller, pid, fileId)]
        && Saved()
        && reply == Some(PaymentSubmitted)
        && sent == [Outgoing(adminId, ProofPhoto(fileId, ApproveCaption(caller, pid)))]
    {
      var pid := Get(session.entries, BuyPidKey, "");
      if pid == "" {
        return None, [];
      }
      var fileId := photoIds[|photoIds| - 1];
      pending := pending + [PendingEntry(caller, pid, fileId)];
      Save();
      reply := Some(PaymentSubmitted);
      sent := [Outgoing(adminId, ProofPhoto(fileId, ApproveCaption(caller, pid)))];
    }

    /**
     * `approve`: resolves the FIRST pending entry for `(user_id, pid)`, adds the
     * buyer to the product (creating a stub record for an unknown id) unless
     * already listed, and sends the buyer the credentials and the code hint.
     */
    method Approve(caller: int, args: seq<string>) returns (reply: Option<Msg>, sent: seq<Outgoing>)
      modifies this`products, this`pending, this`stored
      ensures languages == old(languages)
      ensures old(BuyersDistinct()) ==> BuyersDistinct()
      ensures caller != adminId ==> reply == None && sent == [] && unchanged(this)
      ensures caller == adminId && ApproveArgs(args).None? ==>
        reply == Some(ApproveUsage) && sent == [] && unchanged(this)
      ensures caller == adminId && ApproveArgs(args).Some? ==>
        var (uid, pid) := ApproveArgs(args).value;
        var found := FirstMatch(old(pending), uid, pid);
        && (found.None? ==> reply == Some(PendingNotFound) && sent == [] && unchanged(this))
        && (found.Some? ==>
              && pending == old(pending)[..found.value] + old(pending)[found.value + 1..]
              && products == old(products)[pid := WithBuyer(Get(old(products), pid, EmptyProduct), uid)]
              && Saved()
              && reply == Some(Approved)
              && sent == [Outgoing(uid, Credentials(products[pid].username, products[pid].password)),
                          Outgoing(uid, UseCode(pid, UserLang(uid)))])
    {
      if caller != adminId {
        return None, [];
      }
      var parsed := ApproveArgs(args);
      if parsed.None? {
        return Some(ApproveUsage), [];
      }
      var (uid, pid) := parsed.value;
      var found := FindPending(uid, pid);
      if found.None? {
        return Some(PendingNotFound), [];
      }
      sent := Resolve(found.value, uid, pid);
      reply := Some(Approved);
    }

    /**
     * The body of `approve`'s loop once entry `i` matched: `remove` it, list
     * the buyer, save, and send the buyer the credentials and the code hint.
     */
    method Resolve(i: nat, uid: int, pid: string) returns (sent: seq<Outgoing>)
      requires i < |pending|
      requires forall k :: 0 <= k < i ==> pending[k] != pending[i]
      modifies this`products, this`pending, this`stored
      ensures languages == old(languages)
      ensures old(BuyersDistinct()) ==> BuyersDistinct()
      ensures pending == old(pending)[..i] + old(pending)[i + 1..]
      ensures products == old(products)[pid := WithBuyer(Get(old(products), pid, EmptyProduct), uid)]
      ensures Saved()
      ensures sent == [Outgoing(uid, Credentials(products[pid].username, products[pid].password)),
                       Outgoing(uid, UseCode(pid, UserLang(uid)))]
    {
      var p := pending[i];
      RemoveFirstAt(pending, i, p);
      pending := RemoveFirst(pending, p);
      var record := Get(products, pid, EmptyProduct);
      products := products[pid := WithBuyer(record, uid)];
      Save();
      var creds := products[pid];
      sent := [Outgoing(uid, Credentials(creds.username, creds.password)),
               Outgoing(uid, UseCode(pid, UserLang(uid)))];
    }

    /**
     * The scan of `approve` over the queue: the index of the first entry for
     * `(uid, pid)`, and no entry before it is equal to it.
     */
    method FindPending(uid: int, pid: string) returns (found: Option<nat>)
      ensures found == FirstMatch(pending, uid, pid)
      ensures found.Some? ==> forall k :: 0 <= k < found.value ==> pending[k] != pending[found.value]
    {
      var i := 0;
      while i < |pending|
        invariant 0 <= i <= |pending|
        invariant forall j :: 0 <= j < i ==> !Matches(pending[j], uid, pid)
      {
        if Matches(pending[i], uid, pid) {
          return Some(i);
        }
        i := i + 1;
      }
      return None;
    }

    /**
     * `code`: a buyer's current one-time code. `otp` is the TOTP generator at
     * the current time. Checks run in a fixed order and nothing changes.
     */
    method Code(caller: int, args: seq<string>, otp: string -> string) returns (reply: Msg)
      ensures |args| == 0 ==> reply == CodeUsage
      ensures |args| > 0 && FindProduct(products, args[0]).None? ==> reply == ProductNotFound
      ensures |args| > 0 && FindProduct(products, args[0]).Some? ==>
        var p := FindProduct(products, args[0]).value;
        && (caller !in BuyersOf(p) ==> reply == NotPurchased)
        && (caller in BuyersOf(p) && p.secret.GetOr("") == "" ==> reply == NoTotp)
      ensures reply.CodeIs? <==>
        && |args| > 0
        && FindProduct(products, args[0]).Some?
        && caller in BuyersOf(FindProduct(products, args[0]).value)
        && FindProduct(products, args[0]).value.secret.GetOr("") != ""
      ensures reply.CodeIs? ==> reply.code == otp(FindProduct(products, args[0]).value.secret.value)
    {
      if |args| == 0 {
        return CodeUsage;
      }
      var product := FindProduct(products, args[0]);
      if product.None? {
        return ProductNotFound;
      }
      if caller !in BuyersOf(product.value) {
        return NotPurchased;
      }
      var secret := product.value.secret;
      if secret.GetOr("") == "" {
        return NoTotp;
      }
      reply := CodeIs(otp(secret.value));
    }

    /** `addproduct`: stores the five arguments with no buyers, replacing any product under the id. */
    method AddProduct(caller: int, args: seq<string>) returns (reply: Option<Msg>)
      modifies this`products, this`stored
      ensures pending == old(pending) && languages == old(languages)
      ensures old(BuyersDistinct()) ==> BuyersDistinct()
      ensures caller != adminId ==> reply == None && unchanged(this)
      ensures caller == adminId && |args| < 5 ==> reply == Some(AddproductUsage) && unchanged(this)
      ensures caller == adminId && |args| >= 5 ==>
        && products == old(products)[args[0] := NewProduct(args[1], args[2], args[3], args[4])]
        && Saved()
        && reply == Some(ProductAdded)
    {
      if caller != adminId {
        return None;
      }
      if |args| < 5 {
        return Some(AddproductUsage);
      }
      products := products[args[0] := NewProduct(args[1], args[2], args[3], args[4])];
      Save();
      reply := Some(ProductAdded);
    }

    /** `editproduct`: overwrites one whitelisted field of an existing product. */
    method EditProduct(caller: int, args: seq<string>) returns (reply: Option<Msg>)
      modifies this`products, this`stored
      ensures pending == old(pending) && languages == old(languages)
      ensures old(BuyersDistinct()) ==> BuyersDistinct()
      ensures caller != adminId ==> reply == None && unchanged(this)
      ensures caller == adminId && |args| < 3 ==> reply == Some(EditproductUsage) && unchanged(this)
      ensures caller == adminId && |args| >= 3 && FindProduct(old(products), args[0]).None? ==>
        reply == Some(ProductNotFound) && unchanged(this)
      ensures caller == adminId && |args| >= 3 && FindProduct(old(products), args[0]).Some? ==>
        var edited := EditField(FindProduct(old(products), args[0]).value, args[1], args[2]);
        && (edited.None? ==> reply == Some(InvalidField) && unchanged(this))
        && (edited.Some? ==>
              && products == old(products)[args[0] := edited.value]
              && Saved()
              && reply == Some(ProductUpdated))
    {
      if caller != adminId {
        return None;
      }
      if |args| < 3 {
        return Some(EditproductUsage);
      }
      var product := FindProduct(products, args[0]);
      if product.None? {
        return Some(ProductNotFound);
      }
      var edited := EditField(product.value, args[1], args[2]);
      if edited.None? {
        return Some(InvalidField);
      }
      products := products[args[0] := edited.value];
      Save();
      reply := Some(ProductUpdated);
    }

    /**
     * `resend`: sends the credentials and the code hint again, to every buyer
     * or to the one buyer named; changes nothing.
     */
    method Resend(caller: int, args: seq<string>) returns (reply: Option<Msg>, sent: seq<Outgoing>)
      ensures caller != adminId ==> reply == None && sent == []
      ensures caller == adminId && |args| == 0 ==> reply == Some(ResendUsage) && sent == []
      ensures caller == adminId && |args| > 0 && FindProduct(products, args[0]).None? ==>
        reply == Some(ProductNotFound) && sent == []
      ensures caller == adminId && |args| > 1 && FindProduct(products, args[0]).Some? && ParseInt(args[1]).None? ==>
        reply == Some(InvalidUserId) && sent == []
      ensures caller == adminId && |args| > 0 && FindProduct(products, args[0]).Some?
              && (|args| == 1 || ParseInt(args[1]).Some?) ==>
        var p := FindProduct(products, args[0]).value;
        var targets := ResendTargets(BuyersOf(p), if |args| > 1 then ParseInt(args[1]) else None);
        && (targets == [] ==> reply == Some(NoBuyers) && sent == [])
        && (targets != [] ==> reply == Some(CredentialsResent))
        && |sent| == 2 * |targets|
        && forall k :: 0 <= k < |targets| ==>
             && sent[2 * k] == Outgoing(targets[k], Credentials(p.username, p.password))
             && sent[2 * k + 1] == Outgoing(targets[k], UseCode(args[0], UserLang(targets[k])))
    {
      if caller != adminId {
        return None, [];
      }
      if |args| == 0 {
        return Some(ResendUsage), [];
      }
      var product := FindProduct(products, args[0]);
      if product.None? {
        return Some(ProductNotFound), [];
      }
      var p := product.value;
      var requested := None;
      if |args| > 1 {
        requested := ParseInt(args[1]);
        if requested.None? {
          return Some(InvalidUserId), [];
        }
      }
      var targets := ResendTargets(BuyersOf(p), requested);
      if targets == [] {
        return Some(NoBuyers), [];
      }
      sent := SendCredentials(targets, Credentials(p.username, p.password), args[0]);
      reply := Some(CredentialsResent);
    }

    /** The loop of `resend`: per target in order, the credentials and then the code hint. */
    method SendCredentials(targets: seq<int>, msg: Body, pid: string) returns (sent: seq<Outgoing>)
      ensures |sent| == 2 * |targets|
      ensures forall k :: 0 <= k < |targets| ==>
        && sent[2 * k] == Outgoing(targets[k], msg)
        && sent[2 * k + 1] == Outgoing(targets[k], UseCode(pid, UserLang(targets[k])))
    {
      sent := [];
      for i := 0 to |targets|
        invariant |sent| == 2 * i
        invariant forall k :: 0 <= k < i ==>
          && sent[2 * k] == Outgoing(targets[k], msg)
          && sent[2 * k + 1] == Outgoing(targets[k], UseCode(pid, UserLang(targets[k])))
      {
        sent := sent + [Outgoing(targets[i], msg), Outgoing(targets[i], UseCode(pid, UserLang(targets[i])))];
      }
    }

    /** `stats`: the price and the number of buyers of a product. */
    method Stats(caller: int, args: seq<string>) returns (reply: Option<Msg>)
      ensures caller != adminId ==> reply == None
      ensures caller == adminId && |args| == 0 ==> reply == Some(StatsUsage)
      ensures caller == adminId && |args| > 0 && FindProduct(products, args[0]).None? ==> reply == Some(ProductNotFound)
      ensures caller == adminId && |args| > 0 && FindProduct(products, args[0]).Some? ==>
        reply == Some(PriceTotalBuyers(products[args[0]].price, |BuyersOf(products[args[0]])|))
    {
      if caller != adminId {
        return None;
      }
      if |args| == 0 {
        return Some(StatsUsage);
      }
      var product := FindProduct(products, args[0]);
      if product.None? {
        return Some(ProductNotFound);
      }
      reply := Some(PriceTotalBuyers(product.value.price, |BuyersOf(product.value)|));
    }

    /** `buyers`: the buyer list of a product, in the stored order. */
    method Buyers(caller: int, args: seq<string>) returns (reply: Option<Msg>)
      ensures caller != adminId ==> reply == None
      ensures caller == adminId && |args| == 0 ==> reply == Some(BuyersUsage)
      ensures caller == adminId && |args| > 0 && FindProduct(products, args[0]).None? ==> reply == Some(ProductNotFound)
      ensures caller == adminId && |args| > 0 && FindProduct(products, args[0]).Some? ==>
        var buyers := BuyersOf(products[args[0]]);
        reply == if buyers == [] then Some(NoBuyersList) else Some(BuyersList(buyers))
    {
      if caller != adminId {
        return None;
      }
      if |args| == 0 {
        return Some(BuyersUsage);
      }
      var product := FindProduct(products, args[0]);
      if product.None? {
        return Some(ProductNotFound);
      }
      var buyers := BuyersOf(product.value);
      if buyers != [] {
        reply := Some(BuyersList(buyers));
      } else {
        reply := Some(NoBuyersList);
      }
    }

    /** `deletebuyer`: removes a user from a product's buyer list when listed. */
    method DeleteBuyer(caller: int, args: seq<string>) returns (reply: Option<Msg>)
      modifies this`products, this`stored
      ensures pending == old(pending) && languages == old(languages)
      ensures old(BuyersDistinct()) ==> BuyersDistinct()
      ensures caller != adminId ==> reply == None && unchanged(this)
      ensures caller == adminId && (|args| < 2 || ParseInt(args[1]).None?) ==>
        reply == Some(DeletebuyerUsage) && unchanged(this)
      ensures caller == adminId && |args| >= 2 && ParseInt(args[1]).Some? && FindProduct(old(products), args[0]).None? ==>
        reply == Some(ProductNotFound) && unchanged(this)
      ensures caller == adminId && |args| >= 2 && ParseInt(args[1]).Some? && FindProduct(old(products), args[0]).Some? ==>
        var uid := ParseInt(args[1]).value;
        var p := FindProduct(old(products), args[0]).value;
        && (uid !in BuyersOf(p) ==> reply == Some(BuyerNotFound) && unchanged(this))
        && (uid in BuyersOf(p) ==>
              && products == old(products)[args[0] := p.(buyers := Some(RemoveFirst(BuyersOf(p), uid)))]
              && (NoDuplicates(BuyersOf(p)) ==> uid !in BuyersOf(products[args[0]]))
              && Saved()
              && reply == Some(BuyerRemoved))
    {
      if caller != adminId {
        return None;
      }
      if |args| < 2 || ParseInt(args[1]).None? {
        return Some(DeletebuyerUsage);
      }
      var uid := ParseInt(args[1]).value;
      var product := FindProduct(products, args[0]);
      if product.None? {
        return Some(ProductNotFound);
      }
      var p := product.value;
      if uid !in BuyersOf(p) {
        return Some(BuyerNotFound);
      }
      if NoDuplicates(BuyersOf(p)) {
        RemoveFirstNoDuplicates(BuyersOf(p), uid);
      }
      products := products[args[0] := p.(buyers := Some(RemoveFirst(BuyersOf(p), uid)))];
      Save();
      reply := Some(BuyerRemoved);
    }

    /** `clearbuyers`: empties a product's buyer list. */
    method ClearBuyers(caller: int, args: seq<string>) returns (reply: Option<Msg>)
      modifies this`products, this`stored
      ensures pending == old(pending) && languages == old(languages)
      ensures old(BuyersDistinct()) ==> BuyersDistinct()
      ensures caller != adminId ==> reply == None && unchanged(this)
      ensures caller == adminId && |args| == 0 ==> reply == Some(ClearbuyersUsage) && unchanged(this)
      ensures caller == adminId && |args| > 0 && FindProduct(old(products), args[0]).None? ==>
        reply == Some(ProductNotFound) && unchanged(this)
      ensures caller == adminId && |args| > 0 && FindProduct(old(products), args[0]).Some? ==>
        && products == old(products)[args[0] := old(products)[args[0]].(buyers := Some([]))]
        && Saved()
        && reply == Some(AllBuyersRemoved)
    {
      if caller != adminId {
        return None;
      }
      if |args| == 0 {
        return Some(ClearbuyersUsage);
      }
      var product := FindProduct(products, args[0]);
      if product.None? {
        return Some(ProductNotFound);
      }
      products := products[args[0] := product.value.(buyers := Some([]))];
      Save();
      reply := Some(AllBuyersRemoved);
    }
  }
}
