/** The chat monitor (`DiscordJobMonitor.process_message`): which messages become leads, and
    the lead a message becomes. The client, its events and the clock are outside the model;
    the message and the current time are parameters. */
module DiscordMonitor {
  import opened Records
  import opened Text

  const JobIndicators: seq<string> := ["hiring", "looking for", "need", "seeking", "job", "position"]

  const DiscordChannelsUrl: string := "https://discord.com/channels/"

  /** The server a message was posted in; a direct message has none. */
  datatype Guild = Guild(id: nat, name: string)

  /** The fields of a message the monitor reads; `author` is `str(message.author)`. */
  datatype Message = Message(authorIsBot: bool, author: string, content: string, guild: Option<Guild>, channelId: nat, id: nat)

  /** The link to a message of a server channel. */
  function MessageUrl(g: Guild, channelId: nat, id: nat): string
  {
    DiscordChannelsUrl + Decimal(g.id) + "/" + Decimal(channelId) + "/" + Decimal(id)
  }

  /** A message qualifies when its lower-cased text holds a job indicator and a configured
      keyword. */
  predicate Qualifies(text: string, keywords: seq<string>)
  {
    ContainsAny(text, JobIndicators) && ContainsAny(text, keywords)
  }

  /** `process_message`: the lead handed to the callback, or `None` when the callback is not
      called. */
  function ProcessMessage(msg: Message, keywords: seq<string>, now: Instant): (r: Option<LeadData>)
    ensures msg.authorIsBot ==> r == None
    ensures r.Some? ==> ContainsAny(Lower(msg.content), JobIndicators) && ContainsAny(Lower(msg.content), keywords)
    ensures r.Some? ==>
      r.value.platform == "Discord" && r.value.content == Lower(msg.content)
      && r.value.author == msg.author && r.value.createdAt == At(now)
    ensures r.Some? && msg.guild.None? ==> r.value.url == "DM" && r.value.source == "DM"
  {
    var content := Lower(msg.content);
    if msg.authorIsBot || !Qualifies(content, keywords) then None
    else Some(LeadData(
      "Discord",
      if msg.guild.Some? then msg.guild.value.name else "DM",
      "Discord job post from " + msg.author,
      msg.author,
      content,
      if msg.guild.Some? then MessageUrl(msg.guild.value, msg.channelId, msg.id) else "DM",
      At(now)))
  }

  /** The callback fires exactly for a message of a human author whose lower-cased text holds
      a job indicator and a keyword; the lead keeps the lower-cased text, names the author,
      and comes from the platform `Discord`. */
  lemma ProcessMessageFires(msg: Message, keywords: seq<string>, now: Instant)
    ensures var r := ProcessMessage(msg, keywords, now);
      && (r.Some? <==>
            (!msg.authorIsBot
             && (exists h | h in JobIndicators :: Contains(Lower(msg.content), h))
             && (exists k | k in keywords :: Contains(Lower(msg.content), k))))
      && (r.Some? ==>
            (r.value.platform == "Discord" && r.value.content == Lower(msg.content)
             && r.value.author == msg.author && r.value.createdAt == At(now)
             && StartsWith(r.value.title, "Discord job post from ")))
  {
    var r := ProcessMessage(msg, keywords, now);
    if r.Some? {
      assert r.value.title[..|"Discord job post from "|] == "Discord job post from ";
    }
  }

  /** The classification ignores the case of the message but not of the keywords: a keyword
      with an upper-case letter never matches. */
  lemma UpperCaseKeywordNeverMatches(msg: Message, keyword: string, i: int)
    requires 0 <= i < |keyword| && IsUpper(keyword[i])
    ensures ProcessMessage(msg, [keyword], 0) == None
  {
    UpperPatternNeverMatches(msg.content, keyword, i);
  }

  /** All direct-message leads carry the url and source "DM", so the lead store admits at most
      one of them. Server leads carry a link that ends in the message id, so two of them with
      the same url come from messages with the same id. */
  lemma LeadUrls(m1: Message, m2: Message, keywords: seq<string>, now1: Instant, now2: Instant)
    requires ProcessMessage(m1, keywords, now1).Some? && ProcessMessage(m2, keywords, now2).Some?
    ensures var l1, l2 := ProcessMessage(m1, keywords, now1).value, ProcessMessage(m2, keywords, now2).value;
      && (m1.guild.None? ==> l1.url == "DM" && l1.source == "DM")
      && (m1.guild.None? && m2.guild.None? ==> l1.url == l2.url)
      && (m1.guild.Some? && m2.guild.Some? && l1.url == l2.url ==> m1.id == m2.id)
  {
    if m1.guild.Some? && m2.guild.Some? {
      UrlEndsInId(m1.guild.value, m1.channelId, m1.id);
      UrlEndsInId(m2.guild.value, m2.channelId, m2.id);
      var l1, l2 := ProcessMessage(m1, keywords, now1).value, ProcessMessage(m2, keywords, now2).value;
      if l1.url == l2.url {
        DecimalInjective(m1.id, m2.id);
      }
    }
  }

  /** The text after the last `/` of a message link is the message id. */
  lemma UrlEndsInId(g: Guild, channelId: nat, id: nat)
    ensures LastSegment(MessageUrl(g, channelId, id), '/') == Decimal(id)
  {
    var front := DiscordChannelsUrl + Decimal(g.id) + "/" + Decimal(channelId);
    assert MessageUrl(g, channelId, id) == front + ['/'] + Decimal(id);
    LastSegmentAfter(front, '/', Decimal(id));
  }
}
