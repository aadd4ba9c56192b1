/** The chat-history store: a JSON file holding, for each date "YYYY-MM-DD", the list of
    records made that day, and the page that browses it. The file is modelled by its
    contents, `None` when it does not exist; `json.dump` followed by `json.load` gives back
    the same dictionary, so the encoding itself is not modelled. The current date is a
    parameter. */
module History {
  import opened Wrappers
  import opened Transcript

  /** The decoded file: date to the records of that date, in the order they were added. */
  type Days = map<string, seq<Chat>>

  const NoHistoryInfo: string := "No chat history found."

  /** The records kept under `date` (none when the date is absent). */
  function Bucket(h: Days, date: string): seq<Chat>
  {
    if date in h then h[date] else []
  }

  /** `h` with `c` added at the end of the records of `today`: the bucket is created
      when it is missing, and every other date keeps its records. */
  function WithChat(h: Days, today: string, c: Chat): (h': Days)
    ensures h'.Keys == h.Keys + {today}
    ensures h'[today] == Bucket(h, today) + [c]
    ensures forall d :: d in h && d != today ==> h'[d] == h[d]
  {
    h[today := Bucket(h, today) + [c]]
  }

  /** No date of `h` has an empty list of records. */
  ghost predicate NoEmptyDay(h: Days)
  {
    forall d :: d in h ==> h[d] != []
  }

  /** `add_chat` never leaves a date without records, so a file written only by it has
      none (the empty file holds no date at all). */
  lemma AddChatKeepsDaysNonEmpty(h: Days, today: string, c: Chat)
    requires NoEmptyDay(h)
    ensures NoEmptyDay(WithChat(h, today, c))
  {
  }

  /** Adding a record to an existing date leaves the set of dates as it was; adding it to
      a new date starts that date with the one record. */
  lemma WithChatBuckets(h: Days, today: string, c: Chat)
    ensures today in h ==> WithChat(h, today, c).Keys == h.Keys
    ensures today !in h ==> WithChat(h, today, c)[today] == [c]
  {
  }

  /** Records added one date at a time: the records of every date are those added to it,
      in order. */
  function AddAll(h: Days, adds: seq<(string, Chat)>): Days
  {
    if |adds| == 0 then h
    else WithChat(AddAll(h, adds[..|adds| - 1]), adds[|adds| - 1].0, adds[|adds| - 1].1)
  }

  /** The records added under `date`, in order. */
  function AddedOn(adds: seq<(string, Chat)>, date: string): seq<Chat>
  {
    if |adds| == 0 then []
    else AddedOn(adds[..|adds| - 1], date)
         + (if adds[|adds| - 1].0 == date then [adds[|adds| - 1].1] else [])
  }

  /** Starting from an empty history, each date holds exactly the records added under it,
      in the order of the calls, and holds a bucket exactly when something was added to it. */
  lemma {:induction false} AddAllBuckets(adds: seq<(string, Chat)>, date: string)
    ensures Bucket(AddAll(map[], adds), date) == AddedOn(adds, date)
    ensures date in AddAll(map[], adds) <==> AddedOn(adds, date) != []
  {
    if |adds| > 0 {
      AddAllBuckets(adds[..|adds| - 1], date);
    }
  }

  /** What the history page shows: the notice for an empty history, or one date's records
      with, when there is any record, the transcript offered for download under
      `chat_<date>.txt`. */
  datatype View =
    | NoHistory(info: string)
    | DateView(date: string, chats: seq<Chat>, download: Option<(string, string)>)

  /** The history file. */
  class Store {
    var file: Option<Days>

    /** A store over a file as it is found on disk. */
    constructor(initial: Option<Days>)
      ensures file == initial
    {
      file := initial;
    }

    /** `load_history`: the decoded file, or the empty dictionary when there is no file. */
    function Load(): (h: Days)
      reads this
      ensures file.None? ==> h == map[]
      ensures file.Some? ==> h == file.value
    {
      file.GetOr(map[])
    }

    /** `save_history`: the file now holds `h`, so loading gives `h` back. */
    method Save(h: Days)
      modifies this
      ensures file == Some(h) && Load() == h
    {
      file := Some(h);
    }

    /** `add_chat`: loads the file, adds the record under `today`, creating that date when
        it is missing, and saves the result. */
    method AddChat(today: string, question: string, answer: string, model: string,
                   timestamp: string, pdfs: string)
      modifies this
      ensures Load() == WithChat(old(Load()), today, Chat(question, answer, model, timestamp, pdfs))
      ensures file.Some?
    {
      var history := Load();
      if today !in history {
        history := history[today := []];
      }
      var chat := Chat(question, answer, model, timestamp, pdfs);
      history := history[today := history[today] + [chat]];
      Save(history);
    }

    /** `get_all_history`: the whole stored history, `{}` when there is no file. */
    function GetAllHistory(): (h: Days)
      reads this
      ensures file.None? ==> h == map[]
      ensures file.Some? ==> h == file.value
    {
      Load()
    }

    /** `clear_history`: removes the file; loading afterwards gives the empty dictionary. */
    method ClearHistory()
      modifies this
      ensures file.None? && Load() == map[]
    {
      if file.Some? {
        file := None;
      }
    }

    /** `show_history_ui`: with no record at all, only the notice. Otherwise the date the
        user picks (`pick`, when it is one of the dates; the widget offers no other) and its
        records, with the download offered exactly when there is a record, holding their
        transcript. */
    method ShowHistory(pick: string) returns (v: View)
      ensures Load() == map[] <==> v.NoHistory?
      ensures v.NoHistory? ==> v.info == NoHistoryInfo
      ensures v.DateView? ==> v.date in Load() && v.chats == Load()[v.date]
      ensures v.DateView? && pick in Load() ==> v.date == pick
      ensures v.DateView? ==> (v.download.Some? <==> v.chats != [])
      ensures v.DateView? && v.download.Some? ==>
        v.download.value == ("chat_" + v.date + ".txt", Export(v.chats))
    {
      var history := GetAllHistory();
      if history == map[] {
        return NoHistory(NoHistoryInfo);
      }
      var selectedDate: string;
      if pick in history {
        selectedDate := pick;
      } else {
        selectedDate :| selectedDate in history;
      }
      var chats := history[selectedDate];
      var chatText := BuildExport(chats);
      ExportEmptyIff(chats);
      var download: Option<(string, string)> := None;
      if chatText != "" {
        download := Some(("chat_" + selectedDate + ".txt", chatText));
      }
      v := DateView(selectedDate, chats, download);
    }
  }
}
