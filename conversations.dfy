/**
 * The admin's step-by-step "add product" conversation of `bot_conversations.py`.
 * Each step stores the text just received in the session and returns the next
 * state; "Cancel" ends the conversation at any step; the last step writes the
 * product.
 */
module Conversations {
  import opened Wrappers
  import opened Catalog
  import opened Bot

  /** The conversation states, `range(6)` in order, and the handler's end marker. */
  const AskId := 0
  const AskPrice := 1
  const AskUsername := 2
  const AskPassword := 3
  const AskSecret := 4
  const AskName := 5
  const End := -1

  const CancelText := "Cancel"

  /** The `user_data` keys the conversation fills. */
  const PidKey := "pid"
  const PriceKey := "price"
  const UsernameKey := "username"
  const PasswordKey := "password"
  const SecretKey := "secret"

  /** The fixed texts the conversation replies with. */
  datatype Prompt =
    | Unauthorized | SendProductId | SendPrice | SendUsername | SendPassword
    | SendSecret | SendNameOrSkip | ProductAdded | Cancelled

  /** Every answer before the name step is in the session. */
  predicate Drafted(entries: map<string, string>) {
    PidKey in entries && PriceKey in entries && UsernameKey in entries
    && PasswordKey in entries && SecretKey in entries
  }

  /** `if name and name != "-"`: the name to store, if any. */
  function StoredName(text: string): (r: Option<string>)
    ensures r.Some? <==> text != "" && text != "-"
    ensures r.Some? ==> r.value == text
  {
    if text != "" && text != "-" then Some(text) else None
  }

  /** The record `addproduct_name` writes from the session and the final text. */
  function DraftProduct(entries: map<string, string>, nameText: string): (p: Product)
    requires Drafted(entries)
    ensures p.price == Some(entries[PriceKey]) && p.username == Some(entries[UsernameKey])
    ensures p.password == Some(entries[PasswordKey]) && p.secret == Some(entries[SecretKey])
    ensures p.buyers == Some([]) && p.name == StoredName(nameText)
  {
    NewProduct(entries[PriceKey], entries[UsernameKey], entries[PasswordKey], entries[SecretKey])
      .(name := StoredName(nameText))
  }

  /** `addproduct_menu`: only the admin may start; nothing is written. */
  method AddProductMenu(bot: BotState, caller: int) returns (state: int, reply: Prompt)
    ensures caller != bot.adminId ==> state == End && reply == Unauthorized
    ensures caller == bot.adminId ==> state == AskId && reply == SendProductId
  {
    if caller != bot.adminId {
      return End, Unauthorized;
    }
    return AskId, SendProductId;
  }

  /** `addproduct_cancel`: ends the conversation. */
  method AddProductCancel() returns (state: int, reply: Prompt)
    ensures state == End && reply == Cancelled
  {
    return End, Cancelled;
  }

  /** `addproduct_id`: stores the product id, then asks for the price. */
  method AddProductId(session: UserData, text: string) returns (state: int, reply: Prompt)
    modifies session
    ensures text == CancelText ==> state == End && reply == Cancelled && unchanged(session)
    ensures text != CancelText ==>
      session.entries == old(session.entries)[PidKey := text] && state == AskPrice && reply == SendPrice
  {
    if text == CancelText {
      state, reply := AddProductCancel();
      return;
    }
    session.entries := session.entries[PidKey := text];
    return AskPrice, SendPrice;
  }

  /** `addproduct_price`: stores the price, then asks for the username. */
  method AddProductPrice(session: UserData, text: string) returns (state: int, reply: Prompt)
    modifies session
    ensures text == CancelText ==> state == End && reply == Cancelled && unchanged(session)
    ensures text != CancelText ==>
      session.entries == old(session.entries)[PriceKey := text] && state == AskUsername && reply == SendUsername
  {
    if text == CancelText {
      state, reply := AddProductCancel();
      return;
    }
    session.entries := session.entries[PriceKey := text];
    return AskUsername, SendUsername;
  }

  /** `addproduct_username`: stores the username, then asks for the password. */
  method AddProductUsername(session: UserData, text: string) returns (state: int, reply: Prompt)
    modifies session
    ensures text == CancelText ==> state == End && reply == Cancelled && unchanged(session)
    ensures text != CancelText ==>
      session.entries == old(session.entries)[UsernameKey := text] && state == AskPassword && reply == SendPassword
  {
    if text == CancelText {
      state, reply := AddProductCancel();
      return;
    }
    session.entries := session.entries[UsernameKey := text];
    return AskPassword, SendPassword;
  }

  /** `addproduct_password`: stores the password, then asks for the secret. */
  method AddProductPassword(session: UserData, text: string) returns (state: int, reply: Prompt)
    modifies session
    ensures text == CancelText ==> state == End && reply == Cancelled && unchanged(session)
    ensures text != CancelText ==>
      session.entries == old(session.entries)[PasswordKey := text] && state == AskSecret && reply == SendSecret
  {
    if text == CancelText {
      state, reply := AddProductCancel();
      return;
    }
    session.entries := session.entries[PasswordKey := text];
    return AskSecret, SendSecret;
  }

  /** `addproduct_secret`: stores the secret, then asks for an optional name. */
  method AddProductSecret(session: UserData, text: string) returns (state: int, reply: Prompt)
    modifies session
    ensures text == CancelText ==> state == End && reply == Cancelled && unchanged(session)
    ensures text != CancelText ==>
      session.entries == old(session.entries)[SecretKey := text] && state == AskName && reply == SendNameOrSkip
  {
    if text == CancelText {
      state, reply := AddProductCancel();
      return;
    }
    session.entries := session.entries[SecretKey := text];
    return AskName, SendNameOrSkip;
  }

  /**
   * `addproduct_name`: writes the product under the stored id, replacing any
   * record there, with the name only when one was given. Reading a missing
   * session key raises in the source; the conversation's order rules that out.
   */
  method AddProductName(bot: BotState, session: UserData, text: string) returns (state: int, reply: Prompt)
    requires text != CancelText ==> Drafted(session.entries)
    modifies bot`products, bot`stored
    ensures bot.pending == old(bot.pending) && bot.languages == old(bot.languages)
    ensures text == CancelText ==> state == End && reply == Cancelled && unchanged(bot)
    ensures text != CancelText ==>
      && bot.products == old(bot.products)[session.entries[PidKey] := DraftProduct(session.entries, text)]
      && bot.Saved()
      && state == End && reply == Prompt.ProductAdded
  {
    if text == CancelText {
      state, reply := AddProductCancel();
      return;
    }
    var pid := session.entries[PidKey];
    bot.products := bot.products[pid := NewProduct(session.entries[PriceKey], session.entries[UsernameKey],
                                                   session.entries[PasswordKey], session.entries[SecretKey])];
    var name := StoredName(text);
    if name.Some? {
      bot.products := bot.products[pid := bot.products[pid].(name := name)];
    }
    bot.Save();
    return End, Prompt.ProductAdded;
  }
}
