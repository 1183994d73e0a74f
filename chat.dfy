/**
 * The chat page: its transcript, the text box, the active conversational
 * style, the language and the streaming flag, as one object whose handlers
 * update those fields. The asynchronous `send` is cut into the events the
 * page reacts to: the request starts, a chunk of the reply arrives, the
 * request fails, the request ends.
 */
module Chat {
  import opened Options
  import opened Text
  import Reply

  datatype Role = User | Bot

  /** The seven conversational styles the page offers. */
  datatype ModKey = Pct | Eft | Cbt | Dbt | Sfbt | Psychodynamic | Act

  datatype ModInfo = ModInfo(key: ModKey, name: string, short: string)

  datatype Lang = En | Zh

  datatype ChatMsg = ChatMsg(role: Role, text: string, modality: Option<ModKey>)

  /** The styles in the order "Change modality" walks through them. */
  const Modalities: seq<ModInfo> := [
    ModInfo(Pct, "Person-Centered (PCT)", "Person-Centered"),
    ModInfo(Eft, "Emotion-Focused (EFT)", "Emotion-Focused"),
    ModInfo(Cbt, "Cognitive Behavioral (CBT)", "CBT"),
    ModInfo(Dbt, "Dialectical Behavior (DBT)", "DBT"),
    ModInfo(Sfbt, "Solution-Focused (SFBT)", "Solution-Focused"),
    ModInfo(Psychodynamic, "Psychodynamic", "Psychodynamic"),
    ModInfo(Act, "Acceptance & Commitment (ACT)", "ACT")
  ]

  /** The keys of `Modalities`, in the same order. */
  const Keys: seq<ModKey> := [Pct, Eft, Cbt, Dbt, Sfbt, Psychodynamic, Act]

  lemma ModalitiesKeys()
    ensures |Modalities| == |Keys|
    ensures forall i :: 0 <= i < |Keys| ==> Modalities[i].key == Keys[i]
  {
  }

  /** The key as it travels in the request body. */
  function KeyName(k: ModKey): string {
    match k
    case Pct => "pct"
    case Eft => "eft"
    case Cbt => "cbt"
    case Dbt => "dbt"
    case Sfbt => "sfbt"
    case Psychodynamic => "psychodynamic"
    case Act => "act"
  }

  function LangName(lang: Lang): string {
    if lang == Zh then "zh" else "en"
  }

  const InitialText := "Hi there—I'm Credibot. I can help you get ready for therapy: understand different conversational styles, clarify your preferences, and sketch next steps. If this is an emergency, call your local crisis line or 988 in the U.S."

  /** The greeting every transcript starts with. */
  const Initial := ChatMsg(Bot, InitialText, None)

  function NetworkError(lang: Lang): string {
    if lang == Zh then "网络错误，请重试。" else "Network error. Please try again."
  }

  /** The position of `k` in the list of styles. */
  function KeyIndex(k: ModKey): (i: nat)
    ensures i < 7
  {
    match k
    case Pct => 0
    case Eft => 1
    case Cbt => 2
    case Dbt => 3
    case Sfbt => 4
    case Psychodynamic => 5
    case Act => 6
  }

  lemma KeyIndexSpec(k: ModKey)
    ensures KeyIndex(k) < |Keys| && Keys[KeyIndex(k)] == k
  {
  }

  /** `mods.find(m => m.key === k)`: the first entry with that key. */
  function Lookup(mods: seq<ModInfo>, k: ModKey): (r: Option<ModInfo>)
    ensures r.Some? ==> r.value in mods && r.value.key == k
    ensures r.None? ==> forall i :: 0 <= i < |mods| ==> mods[i].key != k
  {
    if mods == [] then None
    else if mods[0].key == k then Some(mods[0])
    else Lookup(mods[1..], k)
  }

  /** `findIndex(m => m.key === k)` over the keys: -1 when no entry has that key. */
  function IndexOf(keys: seq<ModKey>, k: ModKey): (i: int)
    ensures -1 <= i < |keys|
    ensures i >= 0 ==> keys[i] == k
    ensures i == -1 ==> forall j :: 0 <= j < |keys| ==> keys[j] != k
  {
    if keys == [] then -1
    else if keys[0] == k then 0
    else var j := IndexOf(keys[1..], k); if j == -1 then -1 else j + 1
  }

  /** `find` stops at the first entry with the key. */
  lemma {:induction false} LookupFirst(mods: seq<ModInfo>, k: ModKey, i: nat)
    requires i < |mods| && mods[i].key == k
    requires forall j :: 0 <= j < i ==> mods[j].key != k
    ensures Lookup(mods, k) == Some(mods[i])
  {
    if i > 0 {
      assert mods[0].key != k;
      LookupFirst(mods[1..], k, i - 1);
    }
  }

  /** `findIndex` stops at the first entry with the key. */
  lemma {:induction false} IndexOfFirst(keys: seq<ModKey>, k: ModKey, i: nat)
    requires i < |keys| && keys[i] == k
    requires forall j :: 0 <= j < i ==> keys[j] != k
    ensures IndexOf(keys, k) == i
  {
    if i > 0 {
      assert keys[0] != k;
      IndexOfFirst(keys[1..], k, i - 1);
    }
  }

  /** Every style is found in the list, at its own position. */
  lemma ModalitiesSearch(k: ModKey)
    ensures IndexOf(Keys, k) == KeyIndex(k)
    ensures Lookup(Modalities, k) == Some(Modalities[KeyIndex(k)])
  {
    KeysSearch(k);
    ModalitiesKeys();
    LookupByKeys(Modalities, Keys, k);
  }

  /** Searching the entries finds what searching their keys finds. */
  lemma {:induction false} LookupByKeys(mods: seq<ModInfo>, keys: seq<ModKey>, k: ModKey)
    requires |mods| == |keys| && forall i :: 0 <= i < |keys| ==> mods[i].key == keys[i]
    ensures Lookup(mods, k) == if IndexOf(keys, k) == -1 then None else Some(mods[IndexOf(keys, k)])
  {
    if mods != [] && mods[0].key != k {
      LookupByKeys(mods[1..], keys[1..], k);
    }
  }

  /** `findIndex` finds every style at its own position. */
  lemma KeysSearch(k: ModKey)
    ensures IndexOf(Keys, k) == KeyIndex(k)
  {
    KeyIndexSpec(k);
    IndexOfFirst(Keys, k, KeyIndex(k));
  }

  /** `MODALITIES[(i + 1) % MODALITIES.length].key`, where `i` is the
      position of `k`: the style after `k`, wrapping round at the end. */
  function NextKey(k: ModKey): ModKey {
    Keys[(IndexOf(Keys, k) + 1) % |Keys|]
  }

  /** Reading a key off the list and looking up its position are inverse. */
  lemma KeyAtIndex(j: nat)
    requires j < |Keys|
    ensures KeyIndex(Keys[j]) == j
  {
  }

  /** "Change modality" steps one place along the list, modulo 7. */
  lemma NextKeyStep(k: ModKey)
    ensures KeyIndex(NextKey(k)) == (KeyIndex(k) + 1) % 7
  {
    KeysSearch(k);
    var j := (KeyIndex(k) + 1) % 7;
    assert NextKey(k) == Keys[j];
    KeyAtIndex(j);
  }

  /** The last style wraps round to the first. */
  lemma ActThenPct()
    ensures NextKey(Act) == Pct
  {
    KeysSearch(Act);
    assert (IndexOf(Keys, Act) + 1) % |Keys| == 0;
  }

  /** The label beside "Active style". */
  function ActiveLabel(k: ModKey): string {
    match Lookup(Modalities, k)
    case Some(m) => if m.short != "" then m.short else "Person-Centered"
    case None => "Person-Centered"
  }

  lemma ActiveLabelShort(k: ModKey)
    ensures ActiveLabel(k) == Modalities[KeyIndex(k)].short
    ensures k == Pct <==> ActiveLabel(k) == "Person-Centered"
  {
    ModalitiesSearch(k);
  }

  /** Every style the page can send has a style text of its own on the server:
      only "pct" ends up with the person-centered instructions. */
  lemma ServerKnowsEveryKey(k: ModKey)
    ensures KeyName(k) in Reply.ModalityStyle
    ensures Reply.StyleFor(KeyName(k)) == Reply.ModalityStyle[KeyName(k)]
    ensures Reply.StyleFor(KeyName(k)) == Reply.PctStyle <==> k == Pct
  {
  }

  /** The body `send` posts, as the server reads it. */
  function RequestFor(text: string, k: ModKey, lang: Lang): Reply.RequestBody {
    Reply.RequestBody(Reply.JsonString(text), Some(KeyName(k)), Some(LangName(lang)))
  }

  /** A request the page sends always passes the server's checks, and the
      server prompts with the style and the language the page chose. */
  lemma PageRequestForwarded(apiKey: Option<string>, text: string, k: ModKey, lang: Lang)
    requires !Reply.KeyMissing(apiKey)
    requires Trim(text) != ""
    ensures Reply.Prepare(apiKey, Reply.Parsed(RequestFor(text, k, lang))).Forward?
    ensures Reply.Prepare(apiKey, Reply.Parsed(RequestFor(text, k, lang))).payload.messages ==
      [Reply.Message("system", Reply.SystemPrompt(KeyName(k), LangName(lang))), Reply.Message("user", text)]
  {
  }

  /** `[...messages].reverse().find(m => m.role === "user")?.text`. */
  function LastUserText(ms: seq<ChatMsg>): Option<string> {
    if ms == [] then None
    else if ms[|ms| - 1].role == User then Some(ms[|ms| - 1].text)
    else LastUserText(ms[..|ms| - 1])
  }

  /** The search finds the user message that no later user message follows. */
  lemma {:induction false} LastUserTextAt(ms: seq<ChatMsg>, j: nat)
    requires j < |ms| && ms[j].role == User
    requires forall i :: j < i < |ms| ==> ms[i].role != User
    ensures LastUserText(ms) == Some(ms[j].text)
  {
    if j < |ms| - 1 {
      LastUserTextAt(ms[..|ms| - 1], j);
    }
  }

  /** The search finds nothing exactly when there is no user message. */
  lemma {:induction false} LastUserTextNone(ms: seq<ChatMsg>)
    ensures LastUserText(ms).None? <==> forall i :: 0 <= i < |ms| ==> ms[i].role != User
  {
    if ms != [] && ms[|ms| - 1].role != User {
      var init := ms[..|ms| - 1];
      LastUserTextNone(init);
      assert forall i :: 0 <= i < |init| ==> init[i] == ms[i];
    }
  }

  /** The shape every transcript keeps: the greeting, then pairs of a user
      message with non-blank text and the bot reply to it, in the style it
      was asked in. */
  predicate WellPlaced(ms: seq<ChatMsg>, i: nat)
    requires i < |ms|
  {
    if i % 2 == 1 then ms[i].role == User && ms[i].modality.None? && Trim(ms[i].text) != ""
    else ms[i].role == Bot && (ms[i].modality.Some? <==> i > 0)
  }

  predicate Transcript(ms: seq<ChatMsg>) {
    |ms| % 2 == 1 && forall i :: 0 <= i < |ms| ==> WellPlaced(ms, i)
  }

  /** In a transcript "Change modality" has something to re-send exactly when
      someone has written, and it is the message before the last reply. */
  lemma {:induction false} TranscriptLastUser(ms: seq<ChatMsg>)
    requires Transcript(ms)
    ensures LastUserText(ms).None? <==> |ms| == 1
    ensures |ms| > 1 ==> LastUserText(ms) == Some(ms[|ms| - 2].text) && Trim(ms[|ms| - 2].text) != ""
  {
    var n := |ms|;
    assert (n - 1) % 2 == 0;
    assert WellPlaced(ms, n - 1);
    assert ms[n - 1].role == Bot;
    if n > 1 {
      assert (n - 2) % 2 == 1;
      assert WellPlaced(ms, n - 2);
      assert ms[n - 2].role == User;
      LastUserTextAt(ms, n - 2);
    } else {
      assert ms[..0] == [];
      assert LastUserText(ms) == LastUserText([]);
    }
  }

  /** Sending keeps the shape: a non-blank user message and its reply. */
  lemma TranscriptExtend(ms: seq<ChatMsg>, text: string, k: ModKey)
    requires Transcript(ms) && Trim(text) != ""
    ensures Transcript(ms + [ChatMsg(User, text, None), ChatMsg(Bot, "", Some(k))])
  {
    var ms' := ms + [ChatMsg(User, text, None), ChatMsg(Bot, "", Some(k))];
    forall i | 0 <= i < |ms'| ensures WellPlaced(ms', i) {
      if i < |ms| {
        assert ms'[i] == ms[i];
        assert WellPlaced(ms, i);
      }
    }
  }

  /** Rewriting the text of a reply keeps the shape. */
  lemma TranscriptUpdate(ms: seq<ChatMsg>, j: nat, text: string)
    requires Transcript(ms) && j < |ms| && ms[j].role == Bot
    ensures Transcript(ms[j := ms[j].(text := text)])
  {
    var ms' := ms[j := ms[j].(text := text)];
    forall i | 0 <= i < |ms'| ensures WellPlaced(ms', i) {
      assert WellPlaced(ms, i);
    }
  }

  /** What the reply bubble holds once the request is over: every chunk in
      order, or the network-error text when the request failed before any
      text arrived. */
  function FinalReply(received: seq<string>, failed: bool, lang: Lang): (text: string)
    ensures text == "" ==> !failed && Concat(received) == ""
    ensures Concat(received) != "" ==> text == Concat(received)
  {
    var streamed := Concat(received);
    if failed && streamed == "" then NetworkError(lang) else streamed
  }

  /** Replacing the last element of `before + [x]`. */
  lemma UpdateLast<T>(before: seq<T>, x: T, y: T)
    ensures (before + [x])[|before| := y] == before + [y]
  {
  }

  class ChatPage {
    var messages: seq<ChatMsg>
    var input: string
    var active: ModKey
    var lang: Lang
    var isStreaming: bool

    predicate Valid()
      reads this
    {
      Transcript(messages)
    }

    constructor ()
      ensures Valid()
      ensures messages == [Initial] && input == "" && active == Pct && lang == En && !isStreaming
    {
      messages := [Initial];
      input := "";
      active := Pct;
      lang := En;
      isStreaming := false;
    }

    /** "Start over": the greeting alone, an empty box, nothing streaming. */
    method StartOver()
      modifies this
      ensures Valid()
      ensures messages == [Initial] && input == "" && !isStreaming
      ensures active == old(active) && lang == old(lang)
    {
      isStreaming := false;
      messages := [Initial];
      input := "";
    }

    method SetInput(text: string)
      modifies this
      ensures input == text
      ensures messages == old(messages) && active == old(active) && lang == old(lang)
      ensures isStreaming == old(isStreaming)
    {
      input := text;
    }

    method SetLang(l: Lang)
      modifies this
      ensures lang == l
      ensures messages == old(messages) && input == old(input) && active == old(active)
      ensures isStreaming == old(isStreaming)
    {
      lang := l;
    }

    /** The synchronous start of `send`: unless the text is blank or a reply
        is streaming, the user message and an empty reply bubble are added,
        and the bubble's index is returned for the chunks to come. */
    method BeginSend(text: string, modality: ModKey) returns (started: bool, botIndex: nat)
      requires Valid()
      modifies this
      ensures Valid()
      ensures started <==> Trim(text) != "" && !old(isStreaming)
      ensures !started ==> messages == old(messages) && isStreaming == old(isStreaming)
      ensures started ==> isStreaming && botIndex == |old(messages)| + 1
      ensures started ==> messages == old(messages) + [ChatMsg(User, text, None), ChatMsg(Bot, "", Some(modality))]
      ensures input == old(input) && active == old(active) && lang == old(lang)
    {
      if Trim(text) == "" || isStreaming {
        return false, 0;
      }
      TranscriptExtend(messages, text, modality);
      botIndex := |messages| + 1;
      messages := messages + [ChatMsg(User, text, None), ChatMsg(Bot, "", Some(modality))];
      isStreaming := true;
      started := true;
    }

    /** A chunk of the reply: added to the end of the bubble at `botIndex`
        when that entry exists and is a reply; nothing else moves. */
    method AppendChunk(botIndex: nat, chunk: string)
      requires Valid()
      modifies this
      ensures Valid()
      ensures |messages| == |old(messages)|
      ensures forall i :: 0 <= i < |messages| && i != botIndex ==> messages[i] == old(messages)[i]
      ensures botIndex < |messages| && old(messages)[botIndex].role == Bot ==>
        messages[botIndex] == old(messages)[botIndex].(text := old(messages)[botIndex].text + chunk)
      ensures botIndex < |messages| && old(messages)[botIndex].role != Bot ==> messages == old(messages)
      ensures input == old(input) && active == old(active) && lang == old(lang)
      ensures isStreaming == old(isStreaming)
    {
      if botIndex < |messages| && messages[botIndex].role == Bot {
        var msg := messages[botIndex];
        TranscriptUpdate(messages, botIndex, msg.text + chunk);
        messages := messages[botIndex := msg.(text := msg.text + chunk)];
      }
    }

    /** The request failed: a reply bubble that is still empty shows the
        network error in the language the request was sent in; one with text
        keeps it. */
    method Fail(botIndex: nat, sendLang: Lang)
      requires Valid()
      modifies this
      ensures Valid()
      ensures |messages| == |old(messages)|
      ensures forall i :: 0 <= i < |messages| && i != botIndex ==> messages[i] == old(messages)[i]
      ensures botIndex < |messages| && old(messages)[botIndex].role == Bot ==>
        messages[botIndex].role == Bot && messages[botIndex].modality == old(messages)[botIndex].modality &&
        messages[botIndex].text ==
          (if old(messages)[botIndex].text != "" then old(messages)[botIndex].text else NetworkError(sendLang))
      ensures botIndex < |messages| && old(messages)[botIndex].role != Bot ==> messages == old(messages)
      ensures input == old(input) && active == old(active) && lang == old(lang)
      ensures isStreaming == old(isStreaming)
    {
      if botIndex < |messages| && messages[botIndex].role == Bot {
        var msg := messages[botIndex];
        var text := if msg.text != "" then msg.text else NetworkError(sendLang);
        TranscriptUpdate(messages, botIndex, text);
        messages := messages[botIndex := msg.(text := text)];
      }
    }

    /** The request is over, whichever way it ended. */
    method Finish()
      modifies this
      ensures !isStreaming
      ensures messages == old(messages) && input == old(input) && active == old(active) && lang == old(lang)
    {
      isStreaming := false;
    }

    /** The read loop of `send`: every chunk, in order, added to the end of
        the reply bubble at `botIndex`. */
    method Stream(botIndex: nat, received: seq<string>)
      requires Valid() && botIndex < |messages| && messages[botIndex].role == Bot
      modifies this
      ensures Valid()
      ensures messages == old(messages)[botIndex := old(messages)[botIndex].(text := old(messages)[botIndex].text + Concat(received))]
      ensures input == old(input) && active == old(active) && lang == old(lang)
      ensures isStreaming == old(isStreaming)
    {
      var msg := messages[botIndex];
      assert msg.text + Concat(received[..0]) == msg.text;
      assert messages == messages[botIndex := msg.(text := msg.text)];
      var i := 0;
      while i < |received|
        invariant 0 <= i <= |received|
        invariant Valid()
        invariant messages == old(messages)[botIndex := msg.(text := msg.text + Concat(received[..i]))]
        invariant input == old(input) && active == old(active) && lang == old(lang)
        invariant isStreaming == old(isStreaming)
      {
        ghost var prev := messages;
        AppendChunk(botIndex, received[i]);
        assert messages == prev[botIndex := prev[botIndex].(text := prev[botIndex].text + received[i])];
        ConcatSnoc(received, i);
        assert msg.text + Concat(received[..i]) + received[i] == msg.text + Concat(received[..i + 1]);
        i := i + 1;
      }
      assert received[..i] == received;
    }

    /** What follows a started `send`: the chunks `received` stream into the
        empty bubble at `botIndex`, the request fails when `failed`, and
        streaming stops. */
    method Complete(botIndex: nat, received: seq<string>, failed: bool, sendLang: Lang)
      requires Valid() && botIndex < |messages| && messages[botIndex].role == Bot && messages[botIndex].text == ""
      modifies this
      ensures Valid() && !isStreaming
      ensures messages == old(messages)[botIndex := old(messages)[botIndex].(text := FinalReply(received, failed, sendLang))]
      ensures input == old(input) && active == old(active) && lang == old(lang)
    {
      ghost var bubble := messages[botIndex];
      Stream(botIndex, received);
      assert "" + Concat(received) == Concat(received);
      if failed {
        ghost var streamed := messages;
        Fail(botIndex, sendLang);
        assert messages == streamed[botIndex := bubble.(text := FinalReply(received, failed, sendLang))];
      }
      Finish();
    }

    /** The whole of `send` with no other handler running in between: the
        chunks `received` arrive, and then the request ends, in failure
        when `failed`. */
    method Send(text: string, modality: ModKey, received: seq<string>, failed: bool)
      returns (started: bool, botIndex: nat)
      requires Valid()
      modifies this
      ensures Valid()
      ensures started <==> Trim(text) != "" && !old(isStreaming)
      ensures !started ==> messages == old(messages) && isStreaming == old(isStreaming)
      ensures started ==> !isStreaming && botIndex == |old(messages)| + 1
      ensures started ==>
        messages == old(messages) + [ChatMsg(User, text, None), ChatMsg(Bot, FinalReply(received, failed, old(lang)), Some(modality))]
      ensures input == old(input) && active == old(active) && lang == old(lang)
    {
      var sendLang := lang;
      started, botIndex := BeginSend(text, modality);
      if !started {
        return;
      }
      ghost var before := old(messages) + [ChatMsg(User, text, None)];
      ghost var bubble := ChatMsg(Bot, "", Some(modality));
      ghost var final := ChatMsg(Bot, FinalReply(received, failed, sendLang), Some(modality));
      assert messages == before + [bubble];
      Complete(botIndex, received, failed, sendLang);
      UpdateLast(before, bubble, final);
      assert before + [final] == old(messages) + [ChatMsg(User, text, None), final];
    }

    /** Enter or "Send": a blank box does nothing; otherwise the box is
        cleared, even while a reply is streaming, and the trimmed text is sent
        in the active style. */
    method OnSubmit() returns (started: bool, botIndex: nat)
      requires Valid()
      modifies this
      ensures Valid()
      ensures Trim(old(input)) == "" ==>
        !started && messages == old(messages) && input == old(input) && isStreaming == old(isStreaming)
      ensures Trim(old(input)) != "" ==> input == "" && (started <==> !old(isStreaming))
      ensures !started ==> messages == old(messages) && isStreaming == old(isStreaming)
      ensures started ==> isStreaming && botIndex == |old(messages)| + 1
      ensures started ==> messages == old(messages) + [ChatMsg(User, Trim(old(input)), None), ChatMsg(Bot, "", Some(active))]
      ensures active == old(active) && lang == old(lang)
    {
      var t := Trim(input);
      if t == "" {
        return false, 0;
      }
      input := "";
      TrimTwice(old(input));
      started, botIndex := BeginSend(t, active);
    }

    /** "Change modality": with nobody having written yet, or a reply
        streaming, nothing happens; otherwise the next style becomes active
        and the last user message is asked again in it. */
    method ChangeModality() returns (started: bool, botIndex: nat)
      requires Valid()
      modifies this
      ensures Valid()
      ensures started <==> |old(messages)| > 1 && !old(isStreaming)
      ensures !started ==> messages == old(messages) && active == old(active) && isStreaming == old(isStreaming)
      ensures started ==> active == NextKey(old(active)) && isStreaming && botIndex == |old(messages)| + 1
      ensures started ==>
        messages == old(messages) + [ChatMsg(User, old(messages)[|old(messages)| - 2].text, None), ChatMsg(Bot, "", Some(active))]
      ensures input == old(input) && lang == old(lang)
    {
      TranscriptLastUser(messages);
      var last := LastUserText(messages);
      if last.None? || last.value == "" || isStreaming {
        return false, 0;
      }
      var next := NextKey(active);
      active := next;
      started, botIndex := BeginSend(last.value, next);
    }
  }
}
