/**
 * Who may talk to the bot, and the /delete_scooter command: its argument
 * normalisation, the DELETE it issues and the reply.
 */
module Access {
  import opened Wrappers
  import opened Text
  import opened Store

  /** IsAdminFilter */
  predicate IsAdmin(userId: int, admins: set<int>)
  {
    userId in admins
  }

  /**
   * IsAllowedChatFilter: a private chat with an admin, or a group or
   * supergroup whose id is allowed.
   */
  predicate IsAllowedChat(chatType: string, chatId: int, userId: int, admins: set<int>, allowed: set<int>)
  {
    (chatType == "private" && userId in admins)
    || (chatType in {"group", "supergroup"} && chatId in allowed)
  }

  /** Only those two cases pass; a channel or any other chat type never does. */
  lemma AllowedChatCases(chatType: string, chatId: int, userId: int, admins: set<int>, allowed: set<int>)
    ensures chatType !in {"private", "group", "supergroup"} ==> !IsAllowedChat(chatType, chatId, userId, admins, allowed)
    ensures chatType == "private" ==> (IsAllowedChat(chatType, chatId, userId, admins, allowed) <==> IsAdmin(userId, admins))
    ensures chatType in {"group", "supergroup"} ==> (IsAllowedChat(chatType, chatId, userId, admins, allowed) <==> chatId in allowed)
  {
  }

  // ---------------------------------------------------------------------
  // /delete_scooter <number> <username>
  // ---------------------------------------------------------------------

  const DeleteUsage: string := "🗑️ Используйте: /delete_scooter <номер> <username>\nПример:\n/delete_scooter 12345678 @whoosh_master\n/delete_scooter AB1234 nobody"
  const BadUsername: string := "❌ Укажите корректный username (например, @user или user)"

  /** What the arguments ask for. */
  datatype DeleteRequest = ShowUsage | RejectUsername | Remove(number: string, username: string)

  /**
   * Fewer than two words ask for the usage text; otherwise the first word,
   * upper-cased with dashes removed, is the number and the second, with
   * its leading `@`s stripped, the username, which must not be empty.
   * Further words are ignored.
   */
  function ParseDelete(args: string): DeleteRequest
  {
    var words := Words(args);
    if |words| < 2 then ShowUsage
    else
      var number := RemoveChar(UpperStr(words[0]), '-');
      var username := LStripChar(words[1], '@');
      if username == [] then RejectUsername else Remove(number, username)
  }

  function DeletedReply(deleted: nat, number: string, username: string): string
  {
    if deleted > 0 then
      "✅ Удалено " + NatToString(deleted) + " записей:\n<code>" + number + "</code> от пользователя <code>" + username + "</code>"
    else
      "❌ Запись <code>" + number + "</code> от пользователя @" + username + " не найдена."
  }

  /** The rows the DELETE removes. */
  predicate Targeted(r: Record, number: string, username: string)
  {
    r.number == number && r.username == Some(username)
  }

  lemma {:induction false} LStripCharMeaning(s: string, x: char)
    ensures LStripChar(s, x) == [] || LStripChar(s, x)[0] != x
    ensures |LStripChar(s, x)| <= |s| && LStripChar(s, x) == s[|s| - |LStripChar(s, x)|..]
    ensures forall i :: 0 <= i < |s| - |LStripChar(s, x)| ==> s[i] == x
  {
    if s != [] && s[0] == x {
      LStripCharMeaning(s[1..], x);
    }
  }

  /** `w.lstrip('@')`: empty exactly when w is all `@`s; otherwise it starts with something else. */
  lemma StrippedUsername(w: string)
    ensures var u := LStripChar(w, '@');
      && (u == [] <==> forall i :: 0 <= i < |w| ==> w[i] == '@')
      && (u != [] ==> u[0] != '@')
      && |u| <= |w| && w == w[..|w| - |u|] + u
  {
    var u := LStripChar(w, '@');
    LStripCharMeaning(w, '@');
    if u != [] {
      assert u[0] == w[|w| - |u|];
    }
    assert w == w[..|w| - |u|] + w[|w| - |u|..];
  }

  /**
   * A removal request names a number in the form extraction stores (no
   * dash, upper case) and a non-empty username with no leading `@`; the
   * username is rejected exactly when the second word is all `@`s.
   */
  lemma ParseDeleteMeaning(args: string)
    ensures ParseDelete(args).ShowUsage? <==> |Words(args)| < 2
    ensures ParseDelete(args).RejectUsername? <==>
      |Words(args)| >= 2 && forall i :: 0 <= i < |Words(args)[1]| ==> Words(args)[1][i] == '@'
    ensures ParseDelete(args).Remove? ==>
      var r := ParseDelete(args);
      && r.number == Normalize(Words(args)[0]) && '-' !in r.number
      && r.username != [] && r.username[0] != '@'
      && |r.username| <= |Words(args)[1]|
      && Words(args)[1] == Words(args)[1][..|Words(args)[1]| - |r.username|] + r.username
  {
    var words := Words(args);
    if |words| >= 2 {
      StrippedUsername(words[1]);
      NormalizeIdempotent(words[0]);
    }
  }

  /** The DELETE keeps exactly the rows it does not target, and never adds one. */
  lemma DeleteKeeps(rows: seq<Row>, number: string, username: string)
    ensures var kept := Where(rows, (r: Record) => !(r.number == number && r.username == Some(username)));
      && (forall x :: x in kept <==> x in rows && !Targeted(x.rec, number, username))
      && |kept| <= |rows|
  {
  }

  /**
   * What a removal leaves: exactly the rows of `before` it does not
   * target, never a new one, and the reply giving how many went.
   */
  ghost predicate Removed(before: seq<Row>, after: seq<Row>, number: string, username: string, reply: string)
  {
    && (forall x :: x in after <==> x in before && !Targeted(x.rec, number, username))
    && |after| <= |before|
    && reply == DeletedReply(|before| - |after|, number, username)
  }

  /**
   * delete_scooter_handler: a malformed request changes nothing and is
   * answered with its error; otherwise every row with that number and
   * username, and only those, is deleted and the reply gives the count.
   */
  method DeleteScooter(table: Table, args: string) returns (reply: string)
    requires table.Valid()
    modifies table
    ensures table.Valid()
    ensures ParseDelete(args).ShowUsage? ==> reply == DeleteUsage && table.rows == old(table.rows)
    ensures ParseDelete(args).RejectUsername? ==> reply == BadUsername && table.rows == old(table.rows)
    ensures ParseDelete(args).Remove? ==>
      Removed(old(table.rows), table.rows, ParseDelete(args).number, ParseDelete(args).username, reply)
  {
    var req := ParseDelete(args);
    match req
    case ShowUsage => reply := DeleteUsage;
    case RejectUsername => reply := BadUsername;
    case Remove(number, username) =>
      reply := RemoveTargeted(table, number, username);
  }

  /** `DELETE FROM scooters WHERE scooter_number = ? AND username = ?` and its reply. */
  method RemoveTargeted(table: Table, number: string, username: string) returns (reply: string)
    requires table.Valid()
    modifies table
    ensures table.Valid()
    ensures Removed(old(table.rows), table.rows, number, username, reply)
  {
    DeleteKeeps(table.rows, number, username);
    var deleted := table.Delete(number, username);
    reply := DeletedReply(deleted, number, username);
  }
}
