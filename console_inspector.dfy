/**
 * The console inspector that runs inside the preview panel's webview page
 * (the script of `PreviewPanel._getWebviewContent`): the list of console
 * entries, the running error count with its badge, and the refresh and
 * clear buttons. Messages from the sandboxed iframe are accepted only when
 * they carry a truthy `__labConsole` tag.
 *
 * The DOM is abstracted to the state it displays; timestamps and the HTML
 * rendering of an entry are left out.
 */
module ConsoleInspector {
  import opened Strings

  /** One line of the console panel: its level (also its CSS class) and its text. */
  datatype ConsoleEntry = ConsoleEntry(level: string, message: string)

  /**
   * `event.data` of a message posted to the webview window: `Falsy` when it
   * is falsy; otherwise the truthiness of its `__labConsole` field, its
   * `level`, and its `args` as the proxy sends them (already strings).
   */
  datatype InboundData = Falsy | Payload(labConsole: bool, level: string, args: seq<string>)

  /** Whether the message listener hands a message to `addConsoleEntry`. */
  predicate Accepted(data: InboundData) {
    data.Payload? && data.labConsole
  }

  /** The number of `error` entries in a list. */
  function ErrorEntries(entries: seq<ConsoleEntry>): nat {
    if |entries| == 0 then 0
    else ErrorEntries(entries[..|entries| - 1]) + (if entries[|entries| - 1].level == "error" then 1 else 0)
  }

  /** The error count of a list is bounded by its length and grows by one exactly for an error entry. */
  lemma {:induction false} ErrorEntriesAppend(entries: seq<ConsoleEntry>, e: ConsoleEntry)
    ensures ErrorEntries(entries + [e]) == ErrorEntries(entries) + (if e.level == "error" then 1 else 0)
    ensures ErrorEntries(entries) <= |entries|
  {
    assert (entries + [e])[..|entries|] == entries;
    if |entries| > 0 {
      ErrorEntriesAppend(entries[..|entries| - 1], entries[|entries| - 1]);
      assert entries[..|entries| - 1] + [entries[|entries| - 1]] == entries;
    }
  }

  /** The text of an entry: the arguments joined by single spaces. */
  function EntryMessage(args: seq<string>): string {
    Join(args, " ")
  }

  class Inspector {
    /** The page's `consoleEntries` children since the last clear. */
    var entries: seq<ConsoleEntry>
    /** The script's `errorCount`. */
    var errorCount: nat
    /** The badge's text (`errorCountBadge.textContent`). */
    var badgeText: nat
    /** Whether the badge is displayed (`errorCountBadge.style.display`). */
    var badgeShown: bool
    /** How many times `loadContent` has (re)loaded the iframe. */
    var loads: nat
    /** The status label's text. */
    var status: string
    /** Whether the console panel is collapsed. */
    var collapsed: bool

    /**
     * The badge always shows the number of error entries listed; it is
     * displayed exactly when that number is positive.
     */
    ghost predicate Valid()
      reads this
    {
      && errorCount == ErrorEntries(entries)
      && (badgeShown <==> errorCount > 0)
      && (badgeShown ==> badgeText == errorCount)
    }

    /** The page as it starts: empty console, hidden badge reading 0, the iframe loaded once. */
    constructor ()
      ensures Valid()
      ensures entries == [] && errorCount == 0 && !badgeShown && badgeText == 0
      ensures loads == 1 && status == "Live" && !collapsed
    {
      entries := [];
      errorCount := 0;
      badgeText := 0;
      badgeShown := false;
      collapsed := false;
      loads := 1;
      status := "Live";
    }

    /** `loadContent()`: load the document into the iframe again and mark the preview live. */
    method LoadContent()
      modifies this`loads, this`status
      ensures loads == old(loads) + 1 && status == "Live"
    {
      loads := loads + 1;
      status := "Live";
    }

    /** `refresh()`: reload the iframe; the console entries and the error count are untouched. */
    method Refresh()
      requires Valid()
      modifies this`loads, this`status
      ensures Valid()
      ensures loads == old(loads) + 1 && status == "Live"
      ensures entries == old(entries) && errorCount == old(errorCount)
    {
      LoadContent();
    }

    /** `clearConsole()`: no entries, a zero count and a hidden badge. */
    method ClearConsole()
      requires Valid()
      modifies this`entries, this`errorCount, this`badgeShown
      ensures Valid()
      ensures entries == [] && errorCount == 0 && !badgeShown
      ensures badgeText == old(badgeText) && loads == old(loads)
    {
      entries := [];
      errorCount := 0;
      badgeShown := false;
    }

    /** `toggleConsole()`. */
    method ToggleConsole()
      modifies this`collapsed
      ensures collapsed == !old(collapsed)
    {
      collapsed := !collapsed;
    }

    /**
     * `addConsoleEntry(level, args)`: append exactly one entry; for the level
     * `error` also count it and show the badge with the new count.
     */
    method AddConsoleEntry(level: string, args: seq<string>)
      requires Valid()
      modifies this`entries, this`errorCount, this`badgeText, this`badgeShown
      ensures Valid()
      ensures entries == old(entries) + [ConsoleEntry(level, EntryMessage(args))]
      ensures level == "error" ==> errorCount == old(errorCount) + 1 && badgeShown
      ensures level != "error" ==> errorCount == old(errorCount) && badgeShown == old(badgeShown) && badgeText == old(badgeText)
    {
      var e := ConsoleEntry(level, EntryMessage(args));
      ErrorEntriesAppend(entries, e);
      entries := entries + [e];
      if level == "error" {
        errorCount := errorCount + 1;
        badgeText := errorCount;
        badgeShown := true;
      }
    }

    /** The window's `message` listener: only tagged messages reach the console. */
    method OnMessage(data: InboundData)
      requires Valid()
      modifies this`entries, this`errorCount, this`badgeText, this`badgeShown
      ensures Valid()
      ensures Accepted(data) ==> entries == old(entries) + [ConsoleEntry(data.level, EntryMessage(data.args))]
      ensures Accepted(data) ==> errorCount == old(errorCount) + (if data.level == "error" then 1 else 0)
      ensures !Accepted(data) ==> entries == old(entries) && errorCount == old(errorCount)
      ensures !Accepted(data) ==> badgeShown == old(badgeShown) && badgeText == old(badgeText)
    {
      if data.Payload? && data.labConsole {
        AddConsoleEntry(data.level, data.args);
      }
    }
  }
}
