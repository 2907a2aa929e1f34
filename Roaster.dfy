/**
 * The browser-side `Roaster`: the state behind the scanning screen. It fetches a user's
 * records, filters the ones worth scanning, streams id-stamped log lines into a bounded
 * buffer, merges the roast's per-item thoughts with the user's own comments, and counts
 * every item it plays back.
 *
 * Records arrive typed: a title, a rating (None for `null`), tags, a comment ("" when
 * absent) and a creation time (None when absent). What the two fetches, the random
 * draws and the timers produce are inputs.
 */
module Roaster {
  import opened Base
  import opened Json
  import opened Text

  datatype Status = Idle | Scanning | Analyzing | Success | Error

  datatype Item = Item(title: string, rating: Option<int>, tags: seq<string>, comment: string, createTime: Option<string>)

  datatype LogEntry = LogEntry(id: int, text: string)

  /** A running ingestion interval: the records it cycles through and its position. */
  datatype Ingestion = Ingestion(items: seq<Item>, index: nat)

  /** One entry of the roast's `item_analysis`, with the comment merged in later. */
  datatype Analysis = Analysis(title: string, thought: string, userComment: Option<string>)

  /** An element of the `item_analysis` array: an analysis object, or `null`. */
  datatype AnalysisEntry = Entry(analysis: Analysis) | NullEntry

  /**
   * The roast's `item_analysis` as the client meets it: falsy (missing, `null`, ...), an
   * array, or some other truthy value, which has no `forEach`.
   */
  datatype AnalysisField = NoAnalysis | Listed(entries: seq<AnalysisEntry>) | NotAList

  /** The part of the roast payload the client reads. */
  datatype RoastData = RoastData(itemAnalysis: AnalysisField)

  /** What `/api/fetch-douban` answered. */
  datatype DoubanReply =
    | DoubanOk(count: int, interests: seq<Item>)
    /** A non-ok response; `message` is its body's `message` ("" when missing). */
    | DoubanFailed(message: string)
    /** The request or the body parse threw an error with this message. */
    | DoubanRejected(message: string)

  /** What `/api/roast` answered. */
  datatype RoastReply =
    | RoastOk(data: RoastData)
    /** A non-ok response; `message` is its body's `message` ("" when missing or unreadable). */
    | RoastFailed(message: string)
    /**
     * The request itself rejected, or the body of an ok response was not JSON: the
     * thrown error's `message` is carried as is.
     */
    | RoastRejected(message: string)

  const ConnectingLog := "正在建立精神连接..."
  const EnterIdMessage := "请输入豆瓣ID"
  const FetchingLog := "正在获取公开数据..."
  const FetchFailedMessage := "获取数据失败，请检查ID或网络"
  const NoRecordsMessage := "未找到公开记录，请检查隐私设置"
  const ModelLog := "正在连接 Gemini 2.5 侧写模型..."
  const PatternLog := "开始深度模式识别..."
  const AnalysisFailedMessage := "AI 分析失败"
  const SyncedLog := "侧写向量已同步. 开始回放分析."
  const ReportLog := "正在生成最终诊断报告..."
  const UnknownErrorMessage := "未知错误"
  /** The `TypeError` of `item_analysis.forEach` on a truthy value that is not an array. */
  const NoForEachMessage := "roastData.item_analysis.forEach is not a function"
  /** The `TypeError` of `analysis.title` on a `null` entry. */
  const NullAnalysisMessage := "Cannot read properties of null (reading 'title')"

  /** While scanning, the log buffer holds at most this many entries. */
  const MaxLogs := 50
  /** After an ingestion line, the buffer keeps only this many. */
  const MaxFastLogs := 15
  /** Fewer records worth scanning than this is an error. */
  const MinItems := 5
  /** A playback list longer than this is sampled: some ordinary records are skipped. */
  const SamplingThreshold := 50

  function NotEnoughMessage(kind: string): string
  {
    "数据量不足，再多" + (if kind == "book" then "读几本书" else if kind == "movie" then "看几部电影" else "听几张专辑") + "吧"
  }

  function LockedLog(total: int): string
  {
    "访问许可确认. 锁定 " + IntToString(total) + " 条有效记录."
  }

  /* ---------------- the log buffer ---------------- */

  /** Each log id is below the next one, and the last is below the counter. */
  predicate IdsBelow(logs: seq<LogEntry>, counter: int)
    decreases |logs|
  {
    logs == [] || (logs[|logs| - 1].id < counter && IdsBelow(logs[..|logs| - 1], logs[|logs| - 1].id))
  }

  /** Hence log ids strictly increase along the whole buffer and all lie below the counter. */
  lemma {:induction false} IdsOrdered(logs: seq<LogEntry>, counter: int)
    requires IdsBelow(logs, counter)
    ensures forall i :: 0 <= i < |logs| ==> logs[i].id < counter
    ensures forall i, j :: 0 <= i < j < |logs| ==> logs[i].id < logs[j].id
    decreases |logs|
  {
    if logs != [] {
      var n := |logs| - 1;
      var prefix := logs[..n];
      IdsOrdered(prefix, logs[n].id);
      assert forall i :: 0 <= i < n ==> prefix[i] == logs[i];
    }
  }

  /** Dropping the oldest entry keeps the ids in order. */
  lemma {:induction false} IdsBelowTail(logs: seq<LogEntry>, counter: int)
    requires logs != [] && IdsBelow(logs, counter)
    ensures IdsBelow(logs[1..], counter)
    decreases |logs|
  {
    var n := |logs| - 1;
    if n > 0 {
      IdsBelowTail(logs[..n], logs[n].id);
      assert logs[1..][..n - 1] == logs[..n][1..];
      assert logs[1..][n - 1] == logs[n];
    }
  }

  /**
   * The buffer after `addLog(text)` with the counter at `counter`: the new entry goes at
   * the end, and while scanning a buffer grown past 50 loses its oldest entry, only that one.
   */
  function LogAfter(logs: seq<LogEntry>, counter: int, text: string, scanning: bool): (r: seq<LogEntry>)
    ensures r != [] && r[|r| - 1] == LogEntry(counter, text)
    ensures |logs| <= |r| <= |logs| + 1
    ensures |r| == |logs| <==> scanning && |logs| >= MaxLogs
    ensures scanning && |logs| <= MaxLogs ==> |r| <= MaxLogs
  {
    var appended := logs + [LogEntry(counter, text)];
    if scanning && |appended| > MaxLogs then appended[1..] else appended
  }

  /** What `addLog` keeps: every old entry, or every old entry but the oldest one. */
  lemma LogAfterContents(logs: seq<LogEntry>, counter: int, text: string, scanning: bool)
    ensures var r := LogAfter(logs, counter, text, scanning);
      if scanning && |logs| >= MaxLogs then r == logs[1..] + [LogEntry(counter, text)]
      else r == logs + [LogEntry(counter, text)]
  {
    if scanning && |logs| >= MaxLogs {
      var appended := logs + [LogEntry(counter, text)];
      assert appended[1..] == logs[1..] + [LogEntry(counter, text)];
    }
  }

  /** `addLog` keeps the ids strictly increasing and below the incremented counter. */
  lemma LogAfterKeepsIds(logs: seq<LogEntry>, counter: int, text: string, scanning: bool)
    requires IdsBelow(logs, counter)
    ensures IdsBelow(LogAfter(logs, counter, text, scanning), counter + 1)
  {
    var appended := logs + [LogEntry(counter, text)];
    assert appended[..|logs|] == logs;
    assert IdsBelow(appended, counter + 1);
    if scanning && |appended| > MaxLogs {
      IdsBelowTail(appended, counter + 1);
    }
  }

  /** The buffer after `addLog` of each text in turn, the counter starting at `counter`. */
  function AppendLogs(logs: seq<LogEntry>, counter: int, texts: seq<string>, scanning: bool): seq<LogEntry>
    decreases |texts|
  {
    if texts == [] then logs
    else AppendLogs(LogAfter(logs, counter, texts[0], scanning), counter + 1, texts[1..], scanning)
  }

  /** A run of `addLog` calls keeps the ids strictly increasing and below the counter. */
  lemma {:induction false} AppendLogsKeepsIds(logs: seq<LogEntry>, counter: int, texts: seq<string>, scanning: bool)
    requires IdsBelow(logs, counter)
    ensures IdsBelow(AppendLogs(logs, counter, texts, scanning), counter + |texts|)
    decreases |texts|
  {
    if texts != [] {
      LogAfterKeepsIds(logs, counter, texts[0], scanning);
      AppendLogsKeepsIds(LogAfter(logs, counter, texts[0], scanning), counter + 1, texts[1..], scanning);
    }
  }

  /** While scanning, a run of `addLog` calls keeps a buffer of at most 50 within 50. */
  lemma {:induction false} AppendLogsBounded(logs: seq<LogEntry>, counter: int, texts: seq<string>)
    requires |logs| <= MaxLogs
    ensures |AppendLogs(logs, counter, texts, true)| <= MaxLogs
    decreases |texts|
  {
    if texts != [] {
      AppendLogsBounded(LogAfter(logs, counter, texts[0], true), counter + 1, texts[1..]);
    }
  }

  /** Logging `a` and then `b` is logging `a + b`. */
  lemma {:induction false} AppendLogsConcat(logs: seq<LogEntry>, counter: int, a: seq<string>, b: seq<string>, scanning: bool)
    ensures AppendLogs(logs, counter, a + b, scanning) == AppendLogs(AppendLogs(logs, counter, a, scanning), counter + |a|, b, scanning)
    decreases |a|
  {
    if a == [] {
      assert a + b == b;
    } else {
      AppendLogsConcat(LogAfter(logs, counter, a[0], scanning), counter + 1, a[1..], b, scanning);
      assert (a + b)[1..] == a[1..] + b;
    }
  }

  /** Logging the sync line, when there is one, and then the played lines is logging them in one run. */
  lemma SyncThenPlay(logs: seq<LogEntry>, counter: int, synced: bool, played: seq<string>, scanning: bool)
    ensures AppendLogs(logs, counter, (if synced then [SyncedLog] else []) + played, scanning)
         == AppendLogs(if synced then LogAfter(logs, counter, SyncedLog, scanning) else logs,
                       counter + (if synced then 1 else 0), played, scanning)
  {
    var sync: seq<string> := if synced then [SyncedLog] else [];
    AppendLogsConcat(logs, counter, sync, played, scanning);
    if synced {
      assert sync[1..] == [];
    }
  }

  /** `logs.slice(logs.length - 15)` when longer than 15: the last `n` entries. */
  function KeepLast(logs: seq<LogEntry>, n: nat): (r: seq<LogEntry>)
    ensures |r| <= n && |r| <= |logs|
    ensures |logs| > n ==> |r| == n
    ensures |logs| <= n ==> r == logs
    ensures r == logs[|logs| - |r|..]
  {
    if |logs| > n then logs[|logs| - n..] else logs
  }

  /** Any suffix of the buffer keeps the ids in order and below the counter. */
  lemma {:induction false} IdsBelowSuffix(logs: seq<LogEntry>, counter: int, k: nat)
    requires k <= |logs| && IdsBelow(logs, counter)
    ensures IdsBelow(logs[k..], counter)
    decreases k
  {
    if k == 0 {
      assert logs[0..] == logs;
    } else {
      IdsBelowSuffix(logs, counter, k - 1);
      IdsBelowTail(logs[k - 1..], counter);
      assert logs[k - 1..][1..] == logs[k..];
    }
  }

  /** The ingestion trim keeps the ids in order and below the counter. */
  lemma KeepLastKeepsIds(logs: seq<LogEntry>, counter: int, n: nat)
    requires IdsBelow(logs, counter)
    ensures IdsBelow(KeepLast(logs, n), counter)
  {
    IdsBelowSuffix(logs, counter, |logs| - |KeepLast(logs, n)|);
  }

  /* ---------------- records ---------------- */

  /** `(i.tags && i.tags.length > 0) || i.rating || i.comment`. */
  predicate WorthScanning(item: Item)
  {
    |item.tags| > 0 || (item.rating.Some? && item.rating.value != 0) || item.comment != ""
  }

  /** The records worth scanning, in their original order. */
  function ItemsToScan(items: seq<Item>): (r: seq<Item>)
    ensures |r| <= |items|
    ensures forall x :: x in r <==> x in items && WorthScanning(x)
  {
    if items == [] then []
    else if WorthScanning(items[0]) then [items[0]] + ItemsToScan(items[1..])
    else ItemsToScan(items[1..])
  }

  /**
   * The message `start` fails with for the fetch's answer (lines 63-81 and the catch
   * block), or none when the roast may go ahead.
   */
  function FetchFailure(douban: DoubanReply, kind: string): (m: Option<string>)
    ensures m.Some? ==> m.value != ""
    ensures m.None? <==> douban.DoubanOk? && douban.count != 0 && |ItemsToScan(douban.interests)| >= MinItems
  {
    match douban
    case DoubanFailed(message) => Some(if message != "" then message else FetchFailedMessage)
    case DoubanRejected(message) => Some(if message != "" then message else UnknownErrorMessage)
    case DoubanOk(count, interests) =>
      if count == 0 then Some(NoRecordsMessage)
      else if |ItemsToScan(interests)| < MinItems then Some(NotEnoughMessage(kind))
      else None
  }

  /** `rating <= 2` in JavaScript, where `null` compares as 0. */
  predicate AtMostTwo(rating: Option<int>)
  {
    rating.None? || rating.value <= 2
  }

  /** `rating !== null && (rating <= 2 || rating === 5)`. */
  predicate Extreme(rating: Option<int>)
  {
    rating.Some? && (rating.value <= 2 || rating.value == 5)
  }

  /** `${rating}`. */
  function RatingText(rating: Option<int>): string
  {
    if rating.Some? then IntToString(rating.value) else "null"
  }

  /** `${rating || '无'}`. */
  function RatingOrNone(rating: Option<int>): string
  {
    if rating.Some? && rating.value != 0 then IntToString(rating.value) else "无"
  }

  /** `${create_time}`. */
  function TimeText(t: Option<string>): string
  {
    if t.Some? then t.value else "undefined"
  }

  function Prefix(s: string, n: nat): (r: string)
    ensures |r| <= n && |r| <= |s| && r == s[..|r|]
    ensures |s| <= n ==> r == s
  {
    if |s| <= n then s else s[..n]
  }

  /** `create_time?.slice(0, 10) || '未知日期'`. */
  function IngestDate(item: Item): (date: string)
    ensures date == "未知日期" || (item.createTime.Some? && 0 < |date| <= 10 && |date| <= |item.createTime.value| && date == item.createTime.value[..|date|])
    ensures item.createTime.None? || item.createTime.value == "" ==> date == "未知日期"
    ensures item.createTime.Some? && item.createTime.value != "" ==> date == Prefix(item.createTime.value, 10)
  {
    if item.createTime.Some? && Prefix(item.createTime.value, 10) != "" then Prefix(item.createTime.value, 10) else "未知日期"
  }

  /**
   * The ingestion line for one record: the date, then the first 12 characters of the
   * title, then the rating in stars and the first tag where there are some.
   */
  function IngestLine(item: Item): (line: string)
    ensures OccursAt(line, "[读取] " + IngestDate(item) + " " + Prefix(item.title, 12) + "... ", 0)
  {
    var date := IngestDate(item);
    var rate := if item.rating.Some? && item.rating.value != 0 then IntToString(item.rating.value) + "星" else "";
    var tags := if |item.tags| > 0 then "[" + item.tags[0] + "]" else "";
    var head := "[读取] " + date + " " + Prefix(item.title, 12) + "... ";
    var line := head + rate + " " + tags;
    assert line[..|head|] == head;
    line
  }

  /**
   * The log lines played for one record (lines 221-237): the "analysing" line first; with
   * a thought, the thought line and, for a record without a comment, its record line;
   * without one, a line for a top rating or a rating of at most 2, and one for a comment.
   */
  function ItemLogs(item: Item, analysis: map<string, string>): (r: seq<string>)
    ensures 1 <= |r| <= 3 && r[0] == "正在分析: 《" + item.title + "》"
    ensures item.title in analysis ==>
      && |r| == (if item.comment == "" then 3 else 2)
      && r[1] == "[AI 洞察] " + ReplaceAll(analysis[item.title], "->", " ")
    ensures item.title !in analysis ==>
      (|r| == 1 <==> item.rating != Some(5) && !AtMostTwo(item.rating) && item.comment == "")
  {
    var head := ["正在分析: 《" + item.title + "》"];
    if item.title in analysis then
      var thought := ReplaceAll(analysis[item.title], "->", " ");
      head + ["[AI 洞察] " + thought]
      + (if item.comment == "" then ["> [记录] " + TimeText(item.createTime) + " / 评分: " + RatingOrNone(item.rating)] else [])
    else
      head
      + (if item.rating == Some(5) then [">> 评分: 5.0 (高分样本)"] else [])
      + (if AtMostTwo(item.rating) then [">> 评分: " + RatingText(item.rating) + ".0 (检测到愤怒)"] else [])
      + (if item.comment != "" then [">> 评论摘要: \"" + Prefix(item.comment, 32) + "...\""] else [])
  }

  /**
   * The sampling rule: in a list longer than 50, a record with no thought and no extreme
   * rating is skipped when the draw falls below the skip probability (`coin`).
   */
  predicate SkippedOut(item: Item, coin: bool, analysis: map<string, string>, big: bool)
  {
    big && item.title !in analysis && !Extreme(item.rating) && coin
  }

  /** The log lines of every record played back, in order. */
  function PlayedTexts(items: seq<Item>, coins: seq<bool>, analysis: map<string, string>, big: bool): seq<string>
    requires |coins| == |items|
    decreases |items|
  {
    if items == [] then []
    else
      var n := |items| - 1;
      PlayedTexts(items[..n], coins[..n], analysis, big)
      + (if SkippedOut(items[n], coins[n], analysis, big) then [] else ItemLogs(items[n], analysis))
  }

  /** Playing one more record extends the played lines and moves the current record. */
  lemma PlayStep(items: seq<Item>, coins: seq<bool>, analysis: map<string, string>, big: bool, current: Option<Item>, k: nat)
    requires |coins| == |items| && k < |items|
    ensures SkippedOut(items[k], coins[k], analysis, big) ==>
      && PlayedTexts(items[..k + 1], coins[..k + 1], analysis, big) == PlayedTexts(items[..k], coins[..k], analysis, big)
      && LastPlayed(items[..k + 1], coins[..k + 1], analysis, big, current) == LastPlayed(items[..k], coins[..k], analysis, big, current)
    ensures !SkippedOut(items[k], coins[k], analysis, big) ==>
      && PlayedTexts(items[..k + 1], coins[..k + 1], analysis, big)
         == PlayedTexts(items[..k], coins[..k], analysis, big) + ItemLogs(items[k], analysis)
      && LastPlayed(items[..k + 1], coins[..k + 1], analysis, big, current) == Some(items[k])
  {
    assert items[..k + 1][..k] == items[..k] && coins[..k + 1][..k] == coins[..k];
    if SkippedOut(items[k], coins[k], analysis, big) {
      assert PlayedTexts(items[..k], coins[..k], analysis, big) + [] == PlayedTexts(items[..k], coins[..k], analysis, big);
    }
  }

  /** The record last shown: the last one not skipped, else `current`. */
  function LastPlayed(items: seq<Item>, coins: seq<bool>, analysis: map<string, string>, big: bool, current: Option<Item>): Option<Item>
    requires |coins| == |items|
    decreases |items|
  {
    if items == [] then current
    else
      var n := |items| - 1;
      if SkippedOut(items[n], coins[n], analysis, big) then LastPlayed(items[..n], coins[..n], analysis, big, current)
      else Some(items[n])
  }

  /** The index of the last record below `n` that is not skipped, or -1 when all are. */
  function LastPlayedBelow(items: seq<Item>, coins: seq<bool>, analysis: map<string, string>, big: bool, n: nat): (k: int)
    requires |coins| == |items| && n <= |items|
    ensures -1 <= k < n
    ensures k >= 0 ==> !SkippedOut(items[k], coins[k], analysis, big)
    ensures forall j :: k < j < n ==> SkippedOut(items[j], coins[j], analysis, big)
    decreases n
  {
    if n == 0 then -1
    else if !SkippedOut(items[n - 1], coins[n - 1], analysis, big) then n - 1
    else LastPlayedBelow(items, coins, analysis, big, n - 1)
  }

  /** Only the records below `n` matter to `LastPlayedBelow`. */
  lemma {:induction false} LastPlayedBelowPrefix(items: seq<Item>, coins: seq<bool>, analysis: map<string, string>, big: bool, m: nat, n: nat)
    requires |coins| == |items| && n <= m <= |items|
    ensures LastPlayedBelow(items[..m], coins[..m], analysis, big, n) == LastPlayedBelow(items, coins, analysis, big, n)
    decreases n
  {
    if n > 0 {
      assert items[..m][n - 1] == items[n - 1] && coins[..m][n - 1] == coins[n - 1];
      LastPlayedBelowPrefix(items, coins, analysis, big, m, n - 1);
    }
  }

  /**
   * The current record after playback is the last record not skipped; when every record
   * was skipped it is the one current before.
   */
  lemma {:induction false} LastPlayedIsLast(items: seq<Item>, coins: seq<bool>, analysis: map<string, string>, big: bool, current: Option<Item>)
    requires |coins| == |items|
    ensures var k := LastPlayedBelow(items, coins, analysis, big, |items|);
      LastPlayed(items, coins, analysis, big, current) == if k < 0 then current else Some(items[k])
    decreases |items|
  {
    if items != [] {
      var n := |items| - 1;
      if SkippedOut(items[n], coins[n], analysis, big) {
        LastPlayedIsLast(items[..n], coins[..n], analysis, big, current);
        LastPlayedBelowPrefix(items, coins, analysis, big, n, n);
      }
    }
  }

  /* ---------------- merging thoughts and comments ---------------- */

  /** The record at `i` carries a comment under `title`. */
  predicate CommentedAt(items: seq<Item>, i: int, title: string)
    requires 0 <= i < |items|
  {
    items[i].title == title && items[i].comment != ""
  }

  /** `commentMap`: title to comment, filled in order so a later record wins. */
  function CommentsOf(items: seq<Item>): map<string, string>
    decreases |items|
  {
    if items == [] then map[]
    else
      var n := |items| - 1;
      var m := CommentsOf(items[..n]);
      if items[n].comment != "" then m[items[n].title := items[n].comment] else m
  }
  /** How many entries precede the first `null` one: the analyses the loop gets through. */
  function FirstNull(entries: seq<AnalysisEntry>): (k: nat)
    ensures k <= |entries|
    ensures forall i :: 0 <= i < k ==> entries[i].Entry?
    ensures k < |entries| ==> entries[k].NullEntry?
    decreases |entries|
  {
    if entries == [] || entries[0].NullEntry? then 0
    else
      var k := 1 + FirstNull(entries[1..]);
      assert forall i :: 1 <= i < |entries| ==> entries[i] == entries[1..][i - 1];
      k
  }

  /** The analyses before the first `null` entry, in order. */
  function Analyses(entries: seq<AnalysisEntry>): (list: seq<Analysis>)
    ensures |list| == FirstNull(entries)
    ensures forall i :: 0 <= i < |list| ==> entries[i] == Entry(list[i])
  {
    seq(FirstNull(entries), i requires 0 <= i < FirstNull(entries) => entries[i].analysis)
  }

  /** The analyses put back as array entries. */
  function Entries(list: seq<Analysis>): (entries: seq<AnalysisEntry>)
    ensures |entries| == |list| && FirstNull(entries) == |list|
    ensures forall i :: 0 <= i < |list| ==> entries[i] == Entry(list[i])
  {
    seq(|list|, i requires 0 <= i < |list| => Entry(list[i]))
  }

  /**
   * The `item_analysis` loop of `processRoastData` (lines 191-196): record each thought
   * under its title in `thoughts` and attach the title's comment where there is one,
   * stopping (the loop throws) at the first `null` entry.
   */
  method MergeAnalysis(thoughts: map<string, string>, entries: seq<AnalysisEntry>, comments: map<string, string>)
    returns (merged: map<string, string>, annotated: seq<Analysis>, complete: bool)
    ensures merged == WithThoughts(thoughts, Analyses(entries))
    ensures annotated == Annotate(Analyses(entries), comments)
    ensures complete <==> FirstNull(entries) == |entries|
  {
    ghost var list := Analyses(entries);
    merged, annotated := thoughts, [];
    var j := 0;
    while j < |entries|
      invariant 0 <= j <= |list|
      invariant merged == WithThoughts(thoughts, list[..j])
      invariant annotated == Annotate(list[..j], comments)
    {
      if entries[j].NullEntry? {
        assert list[..j] == list;
        return merged, annotated, false;
      }
      assert list[..j + 1][..j] == list[..j];
      AnnotateSnoc(list, comments, j);
      var analysis := entries[j].analysis;
      merged := merged[analysis.title := analysis.thought];
      if analysis.title in comments {
        analysis := analysis.(userComment := Some(comments[analysis.title]));
      }
      annotated := annotated + [analysis];
      j := j + 1;
    }
    assert list[..j] == list;
    return merged, annotated, true;
  }

  /** The first loop of `processRoastData` (lines 186-189): the comment map, built in order. */
  method CollectComments(items: seq<Item>) returns (comments: map<string, string>)
    ensures comments == CommentsOf(items)
  {
    comments := map[];
    var k := 0;
    while k < |items|
      invariant 0 <= k <= |items|
      invariant comments == CommentsOf(items[..k])
    {
      assert items[..k + 1][..k] == items[..k];
      if items[k].comment != "" {
        comments := comments[items[k].title := items[k].comment];
      }
      k := k + 1;
    }
    assert items[..k] == items;
  }


  /**
   * A title is in the comment map iff some record with that title has a comment, and
   * its value is the comment of the last such record.
   */
  lemma {:induction false} CommentsOfLastWins(items: seq<Item>, title: string)
    ensures title in CommentsOf(items) <==> exists i :: 0 <= i < |items| && CommentedAt(items, i, title)
    ensures title in CommentsOf(items) ==>
      exists i :: 0 <= i < |items| && CommentedAt(items, i, title) && CommentsOf(items)[title] == items[i].comment
        && forall j :: i < j < |items| ==> !CommentedAt(items, j, title)
    decreases |items|
  {
    if items != [] {
      var n := |items| - 1;
      var prefix := items[..n];
      assert CommentsOf(items) ==
        if items[n].comment != "" then CommentsOf(prefix)[items[n].title := items[n].comment] else CommentsOf(prefix);
      CommentsOfLastWins(prefix, title);
      assert forall i :: 0 <= i < n ==> (CommentedAt(prefix, i, title) <==> CommentedAt(items, i, title));
      if CommentedAt(items, n, title) {
        assert CommentsOf(items)[title] == items[n].comment;
      } else if title in CommentsOf(items) {
        var i :| 0 <= i < n && CommentedAt(prefix, i, title) && CommentsOf(prefix)[title] == prefix[i].comment
          && forall j :: i < j < n ==> !CommentedAt(prefix, j, title);
        assert CommentedAt(items, i, title) && CommentsOf(items)[title] == items[i].comment;
      }
    }
  }

  /** `analysisMap.set(title, thought)` for each analysis in order. */
  function WithThoughts(m: map<string, string>, list: seq<Analysis>): map<string, string>
    decreases |list|
  {
    if list == [] then m
    else
      var n := |list| - 1;
      WithThoughts(m, list[..n])[list[n].title := list[n].thought]
  }

  /**
   * After the merge, a title maps to the thought of the last analysis with that title;
   * titles no analysis mentions keep their old thought.
   */
  lemma {:induction false} WithThoughtsLastWins(m: map<string, string>, list: seq<Analysis>, title: string)
    ensures title in WithThoughts(m, list) <==> title in m || exists i :: 0 <= i < |list| && list[i].title == title
    ensures (forall i :: 0 <= i < |list| ==> list[i].title != title) ==>
      title in m ==> WithThoughts(m, list)[title] == m[title]
    ensures forall i :: 0 <= i < |list| && list[i].title == title && (forall j :: i < j < |list| ==> list[j].title != title) ==>
      WithThoughts(m, list)[title] == list[i].thought
    decreases |list|
  {
    if list != [] {
      var n := |list| - 1;
      var prefix := list[..n];
      WithThoughtsLastWins(m, prefix, title);
      assert forall i :: 0 <= i < n ==> prefix[i] == list[i];
    }
  }

  /** `analysis.user_comment = commentMap.get(title)` where the map has the title. */
  function Annotate(list: seq<Analysis>, comments: map<string, string>): (r: seq<Analysis>)
    ensures |r| == |list|
    ensures forall i :: 0 <= i < |list| ==> r[i].title == list[i].title && r[i].thought == list[i].thought
    ensures forall i :: 0 <= i < |list| ==>
      r[i].userComment == (if list[i].title in comments then Some(comments[list[i].title]) else list[i].userComment)
  {
    seq(|list|, i requires 0 <= i < |list| => AnnotateOne(list[i], comments))
  }

  function AnnotateOne(analysis: Analysis, comments: map<string, string>): Analysis
  {
    if analysis.title in comments then analysis.(userComment := Some(comments[analysis.title])) else analysis
  }

  /** Annotating one more analysis appends its annotated form. */
  lemma AnnotateSnoc(list: seq<Analysis>, comments: map<string, string>, j: nat)
    requires j < |list|
    ensures Annotate(list[..j + 1], comments) == Annotate(list[..j], comments) + [AnnotateOne(list[j], comments)]
  {
    var longer := Annotate(list[..j + 1], comments);
    var appended := Annotate(list[..j], comments) + [AnnotateOne(list[j], comments)];
    forall i | 0 <= i < |longer|
      ensures longer[i] == appended[i]
    {
      assert list[..j + 1][i] == list[i];
    }
  }

  /**
   * The roast payload after `processRoastData`, or the message it throws with: every
   * analysis gets the comment of the last scanned record with its title.
   */
  function Processed(items: seq<Item>, data: RoastData): (r: Result<RoastData, string>)
    ensures r.Ok? <==> (data.itemAnalysis.NoAnalysis? ||
      (data.itemAnalysis.Listed? && FirstNull(data.itemAnalysis.entries) == |data.itemAnalysis.entries|))
    ensures data.itemAnalysis.NoAnalysis? ==> r == Ok(data)
    ensures data.itemAnalysis.NotAList? ==> r == Err(NoForEachMessage)
    ensures data.itemAnalysis.Listed? && r.Err? ==> r.error == NullAnalysisMessage
    ensures data.itemAnalysis.Listed? && r.Ok? ==>
      var entries := data.itemAnalysis.entries;
      && r.value.itemAnalysis.Listed? && |r.value.itemAnalysis.entries| == |entries|
      && forall i :: 0 <= i < |entries| ==>
           r.value.itemAnalysis.entries[i] == Entry(AnnotateOne(entries[i].analysis, CommentsOf(items)))
  {
    match data.itemAnalysis
    case NoAnalysis => Ok(data)
    case NotAList => Err(NoForEachMessage)
    case Listed(entries) =>
      if FirstNull(entries) < |entries| then Err(NullAnalysisMessage)
      else Ok(RoastData(Listed(Entries(Annotate(Analyses(entries), CommentsOf(items))))))
  }

  /** `analysisMap` after `processRoastData`: the thoughts the loop got through, recorded. */
  function Thoughts(m: map<string, string>, data: RoastData): map<string, string>
  {
    if data.itemAnalysis.Listed? then WithThoughts(m, Analyses(data.itemAnalysis.entries)) else m
  }

  /** The lines a successful roast logs before the report line: the sync line, then the playback. */
  function ReplayLines(items: seq<Item>, coins: seq<bool>, data: RoastData, thoughts: map<string, string>): seq<string>
    requires |coins| == |items|
  {
    (if data.itemAnalysis.Listed? then [SyncedLog] else [])
    + PlayedTexts(items, coins, thoughts, |items| > SamplingThreshold)
  }

  /* ---------------- the class ---------------- */

  class Roaster {
    var userId: string
    /** `type`: 'book', 'movie' or 'music'. */
    var kind: string
    var status: Status
    var errorMsg: string
    var result: Option<RoastData>
    var scannedCount: int
    var currentItem: Option<Item>
    var totalItems: int
    var systemLogs: seq<LogEntry>
    var logCounter: int
    var analysisMap: map<string, string>
    /** The ingestion interval: None while it is stopped. */
    var ingestion: Option<Ingestion>

    constructor()
      ensures userId == "" && kind == "book" && status == Idle && errorMsg == "" && result.None?
      ensures scannedCount == 0 && currentItem.None? && totalItems == 0
      ensures systemLogs == [] && logCounter == 0 && analysisMap == map[] && ingestion.None?
    {
      userId, kind, status, errorMsg, result := "", "book", Idle, "", None;
      scannedCount, currentItem, totalItems := 0, None, 0;
      systemLogs, logCounter, analysisMap := [], 0, map[];
      ingestion := None;
    }

    /** `reset`: a fresh scanning session whose log holds the single entry with id 0. */
    method Reset()
      modifies this
      ensures status == Scanning && errorMsg == "" && scannedCount == 0 && currentItem.None?
      ensures logCounter == 1 && systemLogs == [LogEntry(0, ConnectingLog)]
      ensures analysisMap == map[] && result.None?
      ensures userId == old(userId) && kind == old(kind) && totalItems == old(totalItems)
      ensures ingestion == old(ingestion)
    {
      status := Scanning;
      errorMsg := "";
      scannedCount := 0;
      currentItem := None;
      logCounter := 0;
      systemLogs := [LogEntry(logCounter, ConnectingLog)];
      logCounter := logCounter + 1;
      analysisMap := map[];
      result := None;
    }

    /**
     * `addLog(text)`: stamp with the counter, append, and trim while scanning. Below the
     * cap of 50 nothing is trimmed.
     */
    method AddLog(text: string)
      modifies this
      ensures systemLogs == LogAfter(old(systemLogs), old(logCounter), text, status == Scanning)
      ensures |old(systemLogs)| < MaxLogs ==> systemLogs == old(systemLogs) + [LogEntry(old(logCounter), text)]
      ensures logCounter == old(logCounter) + 1
      ensures userId == old(userId) && kind == old(kind) && status == old(status) && errorMsg == old(errorMsg)
      ensures result == old(result) && scannedCount == old(scannedCount) && currentItem == old(currentItem)
      ensures totalItems == old(totalItems) && analysisMap == old(analysisMap)
      ensures ingestion == old(ingestion)
      ensures IdsBelow(old(systemLogs), old(logCounter)) ==> IdsBelow(systemLogs, logCounter)
    {
      if IdsBelow(systemLogs, logCounter) {
        LogAfterKeepsIds(systemLogs, logCounter, text, status == Scanning);
      }
      ghost var after := LogAfter(systemLogs, logCounter, text, status == Scanning);
      systemLogs := systemLogs + [LogEntry(logCounter, text)];
      logCounter := logCounter + 1;
      if status == Scanning && |systemLogs| > MaxLogs {
        systemLogs := systemLogs[1..];
      }
      assert systemLogs == after;
    }

    /** `startIngestionVisualization(items)`: the interval starts at the first record. */
    method StartIngestion(items: seq<Item>)
      modifies this
      ensures ingestion == Some(Ingestion(items, 0))
      ensures userId == old(userId) && kind == old(kind) && status == old(status) && errorMsg == old(errorMsg)
      ensures result == old(result) && scannedCount == old(scannedCount) && currentItem == old(currentItem)
      ensures totalItems == old(totalItems) && analysisMap == old(analysisMap)
      ensures systemLogs == old(systemLogs) && logCounter == old(logCounter)
    {
      ingestion := Some(Ingestion(items, 0));
    }

    /**
     * One interval tick: show the next record (wrapping to the first), and when the draw
     * says so, log an ingestion line and keep only the last 15 entries.
     */
    method IngestTick(roll: bool)
      requires ingestion.Some? && |ingestion.value.items| > 0
      modifies this
      ensures var items := old(ingestion).value.items;
        var i := if old(ingestion).value.index >= |items| then 0 else old(ingestion).value.index;
        && ingestion == Some(Ingestion(items, i + 1))
        && currentItem == Some(items[i])
        && (roll ==>
              && systemLogs == KeepLast(LogAfter(old(systemLogs), old(logCounter), IngestLine(items[i]), status == Scanning), MaxFastLogs)
              && logCounter == old(logCounter) + 1)
      ensures roll ==> |systemLogs| <= MaxFastLogs
      ensures !roll ==> systemLogs == old(systemLogs) && logCounter == old(logCounter)
      ensures userId == old(userId) && kind == old(kind) && status == old(status) && errorMsg == old(errorMsg)
      ensures result == old(result) && scannedCount == old(scannedCount) && totalItems == old(totalItems)
      ensures analysisMap == old(analysisMap)
      ensures IdsBelow(old(systemLogs), old(logCounter)) ==> IdsBelow(systemLogs, logCounter)
    {
      var items := ingestion.value.items;
      var index := ingestion.value.index;
      if index >= |items| {
        index := 0;
      }
      var item := items[index];
      currentItem := Some(item);
      if roll {
        AddLog(IngestLine(item));
        KeepFastLogs();
      }
      ingestion := Some(Ingestion(items, index + 1));
    }

    /** The trim after an ingestion line (lines 169-171): only the last 15 entries stay. */
    method KeepFastLogs()
      modifies this
      ensures systemLogs == KeepLast(old(systemLogs), MaxFastLogs)
      ensures IdsBelow(old(systemLogs), logCounter) ==> IdsBelow(systemLogs, logCounter)
      ensures logCounter == old(logCounter) && currentItem == old(currentItem)
      ensures scannedCount == old(scannedCount) && Background() == old(Background())
    {
      if |systemLogs| > MaxFastLogs {
        systemLogs := systemLogs[|systemLogs| - MaxFastLogs..];
      }
      if IdsBelow(old(systemLogs), logCounter) {
        KeepLastKeepsIds(old(systemLogs), logCounter, MaxFastLogs);
      }
    }

    /** `stopIngestionVisualization`. */
    method StopIngestion()
      modifies this
      ensures ingestion.None?
      ensures userId == old(userId) && kind == old(kind) && status == old(status) && errorMsg == old(errorMsg)
      ensures result == old(result) && scannedCount == old(scannedCount) && currentItem == old(currentItem)
      ensures totalItems == old(totalItems) && analysisMap == old(analysisMap)
      ensures systemLogs == old(systemLogs) && logCounter == old(logCounter)
    {
      ingestion := None;
    }

    /**
     * `processRoastData`: with an `item_analysis` array, record every thought under its
     * title, attach to each analysis the comment of the last scanned record with that
     * title, and log the sync line; a `null` entry throws once the entries before it are
     * recorded, and a truthy `item_analysis` that is not an array throws at once. Without
     * one, nothing changes.
     */
    method ProcessRoastData(items: seq<Item>, data: RoastData) returns (processed: Result<RoastData, string>)
      modifies this
      ensures processed == Processed(items, data)
      ensures analysisMap == Thoughts(old(analysisMap), data)
      ensures processed.Err? || data.itemAnalysis.NoAnalysis? ==>
        systemLogs == old(systemLogs) && logCounter == old(logCounter)
      ensures processed.Ok? && data.itemAnalysis.Listed? ==>
        && systemLogs == LogAfter(old(systemLogs), old(logCounter), SyncedLog, status == Scanning)
        && logCounter == old(logCounter) + 1
      ensures userId == old(userId) && kind == old(kind) && status == old(status) && errorMsg == old(errorMsg)
      ensures result == old(result) && scannedCount == old(scannedCount) && currentItem == old(currentItem)
      ensures totalItems == old(totalItems)
      ensures ingestion == old(ingestion)
    {
      match data.itemAnalysis {
        case NoAnalysis =>
          return Ok(data);
        case NotAList =>
          return Err(NoForEachMessage);
        case Listed(entries) =>
          var commentMap := CollectComments(items);
          var merged, annotated, complete := MergeAnalysis(analysisMap, entries, commentMap);
          analysisMap := merged;
          if !complete {
            return Err(NullAnalysisMessage);
          }
          processed := Ok(RoastData(Listed(Entries(annotated))));
          AddLog(SyncedLog);
      }
    }

    /** The inner `for (const logText of logs) addLog(logText)` loop. */
    method LogLines(texts: seq<string>)
      modifies this
      ensures systemLogs == AppendLogs(old(systemLogs), old(logCounter), texts, status == Scanning)
      ensures logCounter == old(logCounter) + |texts|
      ensures userId == old(userId) && kind == old(kind) && status == old(status) && errorMsg == old(errorMsg)
      ensures result == old(result) && scannedCount == old(scannedCount) && currentItem == old(currentItem)
      ensures totalItems == old(totalItems) && analysisMap == old(analysisMap)
      ensures ingestion == old(ingestion)
    {
      var j := 0;
      while j < |texts|
        invariant 0 <= j <= |texts|
        invariant systemLogs == AppendLogs(old(systemLogs), old(logCounter), texts[..j], status == Scanning)
        invariant logCounter == old(logCounter) + j
        invariant userId == old(userId) && kind == old(kind) && status == old(status) && errorMsg == old(errorMsg)
        invariant result == old(result) && scannedCount == old(scannedCount) && currentItem == old(currentItem)
        invariant totalItems == old(totalItems) && analysisMap == old(analysisMap)
        invariant ingestion == old(ingestion)
      {
        AppendLogsConcat(old(systemLogs), old(logCounter), texts[..j], [texts[j]], status == Scanning);
        assert texts[..j] + [texts[j]] == texts[..j + 1];
        AddLog(texts[j]);
        j := j + 1;
      }
      assert texts[..j] == texts;
    }

    /** The fields the scanning playback leaves alone, taken together. */
    ghost function Background(): (string, string, Status, string, Option<RoastData>, int,
                                  map<string, string>, Option<Ingestion>)
      reads this
    {
      (userId, kind, status, errorMsg, result, totalItems, analysisMap, ingestion)
    }

    /**
     * The state after playing the first `k` records on top of the log `start` and the
     * counter `counter`: their lines logged in order, the last one played current.
     */
    ghost predicate PlayedUpTo(items: seq<Item>, coins: seq<bool>, k: nat, big: bool,
                               start: seq<LogEntry>, counter: int, current: Option<Item>)
      requires |coins| == |items| && k <= |items|
      reads this
    {
      var texts := PlayedTexts(items[..k], coins[..k], analysisMap, big);
      && systemLogs == AppendLogs(start, counter, texts, status == Scanning)
      && logCounter == counter + |texts|
      && currentItem == LastPlayed(items[..k], coins[..k], analysisMap, big, current)
    }

    /**
     * One played record (lines 221-237): it becomes the current one and its lines are
     * logged after the `played` lines already logged on top of `start`.
     */
    method PlayItem(item: Item, ghost start: seq<LogEntry>, ghost counter: int, ghost played: seq<string>)
      requires systemLogs == AppendLogs(start, counter, played, status == Scanning)
      requires logCounter == counter + |played|
      modifies this
      ensures currentItem == Some(item) && scannedCount == old(scannedCount) + 1
      ensures systemLogs == AppendLogs(start, counter, played + ItemLogs(item, analysisMap), status == Scanning)
      ensures logCounter == counter + |played + ItemLogs(item, analysisMap)|
      ensures Background() == old(Background())
    {
      currentItem := Some(item);
      scannedCount := scannedCount + 1;
      var lines := ItemLogs(item, analysisMap);
      AppendLogsConcat(start, counter, played, lines, status == Scanning);
      LogLines(lines);
    }

    /**
     * One turn of the playback loop (lines 202-237) for record `k`: the count goes up, and
     * unless the sampling skips the record, it becomes the current one and its lines are
     * logged. Stated as the step from the first `k` records to the first `k + 1`.
     */
    method PlayNext(items: seq<Item>, coins: seq<bool>, k: nat, big: bool,
                    ghost start: seq<LogEntry>, ghost counter: int, ghost current: Option<Item>)
      requires |coins| == |items| && k < |items|
      requires PlayedUpTo(items, coins, k, big, start, counter, current)
      modifies this
      ensures scannedCount == old(scannedCount) + 1
      ensures PlayedUpTo(items, coins, k + 1, big, start, counter, current)
      ensures Background() == old(Background())
    {
      var item := items[k];
      PlayStep(items, coins, analysisMap, big, current, k);
      if SkippedOut(item, coins[k], analysisMap, big) {
        scannedCount := scannedCount + 1;
      } else {
        PlayItem(item, start, counter, PlayedTexts(items[..k], coins[..k], analysisMap, big));
      }
    }

    /**
     * `playScanningAnimation(items)`: every record adds one to `scannedCount`, whether
     * the sampling skips it or it is played; a played record becomes the current one and
     * logs its lines. `coins[i]` is the draw for record `i`.
     */
    method PlayScanningAnimation(items: seq<Item>, coins: seq<bool>)
      requires |coins| == |items|
      modifies this
      ensures scannedCount == old(scannedCount) + |items|
      ensures var texts := PlayedTexts(items, coins, analysisMap, |items| > SamplingThreshold);
        systemLogs == AppendLogs(old(systemLogs), old(logCounter), texts, status == Scanning)
        && logCounter == old(logCounter) + |texts|
      ensures currentItem == LastPlayed(items, coins, analysisMap, |items| > SamplingThreshold, old(currentItem))
      ensures userId == old(userId) && kind == old(kind) && status == old(status) && errorMsg == old(errorMsg)
      ensures result == old(result) && totalItems == old(totalItems) && analysisMap == old(analysisMap)
      ensures ingestion == old(ingestion)
    {
      var big := |items| > SamplingThreshold;
      var k := 0;
      while k < |items|
        invariant 0 <= k <= |items|
        invariant scannedCount == old(scannedCount) + k
        invariant PlayedUpTo(items, coins, k, big, old(systemLogs), old(logCounter), old(currentItem))
        invariant Background() == old(Background())
      {
        PlayNext(items, coins, k, big, old(systemLogs), old(logCounter), old(currentItem));
        k := k + 1;
      }
      assert items[..k] == items && coins[..k] == coins;
      assert PlayedUpTo(items, coins, k, big, old(systemLogs), old(logCounter), old(currentItem));
    }

    /**
     * `start` up to the roast request (lines 46-90), with the fetch's answer as input.
     * An empty id only sets the error message. Otherwise the session is reset and, on
     * any failure, ends in the error state with the message the catch block derives;
     * on success it returns the records worth scanning with the ingestion running.
     */
    method Begin(douban: DoubanReply) returns (toScan: Option<seq<Item>>)
      modifies this
      ensures userId == old(userId) && kind == old(kind)
      ensures old(userId) == "" ==>
        && toScan.None? && errorMsg == EnterIdMessage && status == old(status)
        && systemLogs == old(systemLogs) && logCounter == old(logCounter) && scannedCount == old(scannedCount)
        && result == old(result) && analysisMap == old(analysisMap) && ingestion == old(ingestion)
        && currentItem == old(currentItem) && totalItems == old(totalItems)
      ensures old(userId) != "" ==>
        && scannedCount == 0 && result.None? && analysisMap == map[] && currentItem.None?
      ensures old(userId) != "" && douban.DoubanOk? && douban.count != 0 ==>
        totalItems == |ItemsToScan(douban.interests)|
      ensures old(userId) != "" && !(douban.DoubanOk? && douban.count != 0) ==>
        totalItems == old(totalItems)
      ensures old(userId) != "" && FetchFailure(douban, kind).Some? ==>
        && toScan.None? && status == Error && ingestion.None? && errorMsg == FetchFailure(douban, kind).value
        && systemLogs == [LogEntry(0, ConnectingLog), LogEntry(1, FetchingLog)] && logCounter == 2
      ensures old(userId) != "" && FetchFailure(douban, kind).None? ==>
        && toScan == Some(ItemsToScan(douban.interests))
        && status == Scanning && errorMsg == ""
        && ingestion == Some(Ingestion(douban.interests, 0))
        && logCounter == 5
        && systemLogs == [LogEntry(0, ConnectingLog), LogEntry(1, FetchingLog),
                          LogEntry(2, LockedLog(totalItems)), LogEntry(3, ModelLog), LogEntry(4, PatternLog)]
    {
      if userId == "" {
        errorMsg := EnterIdMessage;
        return None;
      }
      Reset();
      AddLog(FetchingLog);
      if douban.DoubanOk? && douban.count != 0 {
        totalItems := |ItemsToScan(douban.interests)|;
      }
      var failure := FetchFailure(douban, kind);
      if failure.Some? {
        Fail(failure.value);
        return None;
      }
      Lock(douban.interests);
      return Some(ItemsToScan(douban.interests));
    }

    /**
     * The success path of the fetch (lines 83-90): three log lines, then the ingestion
     * starts over the fetched records. Below the cap nothing is trimmed.
     */
    method Lock(interests: seq<Item>)
      requires |systemLogs| + 3 <= MaxLogs
      modifies this
      ensures systemLogs == old(systemLogs) + [LogEntry(old(logCounter), LockedLog(totalItems)),
        LogEntry(old(logCounter) + 1, ModelLog), LogEntry(old(logCounter) + 2, PatternLog)]
      ensures logCounter == old(logCounter) + 3
      ensures ingestion == Some(Ingestion(interests, 0))
      ensures userId == old(userId) && kind == old(kind) && status == old(status) && errorMsg == old(errorMsg)
      ensures result == old(result) && scannedCount == old(scannedCount) && currentItem == old(currentItem)
      ensures totalItems == old(totalItems) && analysisMap == old(analysisMap)
    {
      AddLog(LockedLog(totalItems));
      AddLog(ModelLog);
      AddLog(PatternLog);
      StartIngestion(interests);
    }

    /** The `catch` block: stop the ingestion, enter the error state with `err.message || '未知错误'`. */
    method Fail(message: string)
      modifies this
      ensures ingestion.None? && status == Error
      ensures errorMsg == (if message != "" then message else UnknownErrorMessage)
      ensures userId == old(userId) && kind == old(kind) && result == old(result)
      ensures scannedCount == old(scannedCount) && currentItem == old(currentItem) && totalItems == old(totalItems)
      ensures systemLogs == old(systemLogs) && logCounter == old(logCounter) && analysisMap == old(analysisMap)
    {
      StopIngestion();
      status := Error;
      errorMsg := if message != "" then message else UnknownErrorMessage;
    }

    /**
     * `start` from the roast's answer on (lines 113-139): stop the ingestion and zero the
     * count; a failed roast ends in the error state with nothing else touched; otherwise
     * the analysis is merged and, unless that throws, the payload is kept, every record
     * played back and the session finishes in the success state.
     */
    method Finish(items: seq<Item>, roast: RoastReply, coins: seq<bool>)
      requires |coins| == |items|
      modifies this
      ensures ingestion.None? && userId == old(userId) && kind == old(kind) && totalItems == old(totalItems)
      ensures !roast.RoastOk? ==>
        && status == Error && scannedCount == 0 && result == old(result)
        && systemLogs == old(systemLogs) && logCounter == old(logCounter)
        && analysisMap == old(analysisMap) && currentItem == old(currentItem)
      ensures roast.RoastFailed? ==>
        errorMsg == (if roast.message != "" then roast.message else AnalysisFailedMessage)
      ensures roast.RoastRejected? ==>
        errorMsg == (if roast.message != "" then roast.message else UnknownErrorMessage)
      ensures roast.RoastOk? ==> analysisMap == Thoughts(old(analysisMap), roast.data)
      ensures roast.RoastOk? && Processed(items, roast.data).Err? ==>
        && status == Error && errorMsg == Processed(items, roast.data).error
        && scannedCount == 0 && result == old(result) && currentItem == old(currentItem)
        && systemLogs == old(systemLogs) && logCounter == old(logCounter)
      ensures roast.RoastOk? && Processed(items, roast.data).Ok? ==>
        var lines := ReplayLines(items, coins, roast.data, analysisMap);
        && status == Success && errorMsg == old(errorMsg)
        && result == Some(Processed(items, roast.data).value)
        && scannedCount == |items|
        && systemLogs == AppendLogs(old(systemLogs), old(logCounter), lines, old(status) == Scanning)
                         + [LogEntry(old(logCounter) + |lines|, ReportLog)]
        && logCounter == old(logCounter) + |lines| + 1
        && currentItem == LastPlayed(items, coins, analysisMap, |items| > SamplingThreshold, old(currentItem))
    {
      StopIngestion();
      scannedCount := 0;
      match roast {
        case RoastFailed(message) =>
          Fail(if message != "" then message else AnalysisFailedMessage);
        case RoastRejected(message) =>
          Fail(message);
        case RoastOk(data) =>
          Replay(items, data, coins);
      }
    }

    /**
     * The success path of `start` (lines 126-139): merge the analysis; if that throws,
     * the catch block ends in the error state; otherwise keep the payload, play every
     * record back, log the report line and finish in the success state.
     */
    method Replay(items: seq<Item>, data: RoastData, coins: seq<bool>)
      requires |coins| == |items| && scannedCount == 0
      modifies this
      ensures analysisMap == Thoughts(old(analysisMap), data)
      ensures userId == old(userId) && kind == old(kind) && totalItems == old(totalItems)
      ensures Processed(items, data).Err? ==>
        && status == Error && errorMsg == Processed(items, data).error && ingestion.None?
        && scannedCount == 0 && result == old(result) && currentItem == old(currentItem)
        && systemLogs == old(systemLogs) && logCounter == old(logCounter)
      ensures Processed(items, data).Ok? ==>
        var lines := ReplayLines(items, coins, data, analysisMap);
        && status == Success && errorMsg == old(errorMsg) && ingestion == old(ingestion)
        && result == Some(Processed(items, data).value) && scannedCount == |items|
        && systemLogs == AppendLogs(old(systemLogs), old(logCounter), lines, old(status) == Scanning)
                         + [LogEntry(old(logCounter) + |lines|, ReportLog)]
        && logCounter == old(logCounter) + |lines| + 1
        && currentItem == LastPlayed(items, coins, analysisMap, |items| > SamplingThreshold, old(currentItem))
    {
      var processed := ProcessRoastData(items, data);
      if processed.Err? {
        Fail(processed.error);
        return;
      }
      result := Some(processed.value);
      SyncThenPlay(old(systemLogs), old(logCounter), data.itemAnalysis.Listed?,
        PlayedTexts(items, coins, analysisMap, |items| > SamplingThreshold), status == Scanning);
      PlayAndReport(items, coins);
    }

    /**
     * Lines 133-139: play every record back, then log the report line outside the
     * scanning state and finish in the success state.
     */
    method PlayAndReport(items: seq<Item>, coins: seq<bool>)
      requires |coins| == |items|
      modifies this
      ensures var played := PlayedTexts(items, coins, analysisMap, |items| > SamplingThreshold);
        && systemLogs == AppendLogs(old(systemLogs), old(logCounter), played, old(status) == Scanning)
                         + [LogEntry(old(logCounter) + |played|, ReportLog)]
        && logCounter == old(logCounter) + |played| + 1
      ensures currentItem == LastPlayed(items, coins, analysisMap, |items| > SamplingThreshold, old(currentItem))
      ensures scannedCount == old(scannedCount) + |items| && status == Success
      ensures userId == old(userId) && kind == old(kind) && errorMsg == old(errorMsg) && result == old(result)
      ensures totalItems == old(totalItems) && analysisMap == old(analysisMap) && ingestion == old(ingestion)
    {
      PlayScanningAnimation(items, coins);
      status := Analyzing;
      LogAfterContents(systemLogs, logCounter, ReportLog, false);
      AddLog(ReportLog);
      status := Success;
    }
  }
}
