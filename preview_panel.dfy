/**
 * The host side of the live preview (`PreviewPanel`): at most one panel at a
 * time, held in a slot that `createOrShow` fills and `dispose` clears; the
 * panel re-renders the previewed file on a file-watcher change and on a save
 * of that same file, and releases its subscriptions last-registered-first
 * when disposed.
 *
 * The VS Code API is abstracted: reading the file is an input (`ReadResult`),
 * revealing the panel is counted, and disposing a subscription is recorded.
 */
module Preview {
  import opened ConsoleCapture

  /** The outcome of `vscode.workspace.fs.readFile` on the previewed file, decoded as UTF-8. */
  datatype ReadResult = ReadOk(text: string) | ReadFailed(message: string)

  /** What the panel's webview shows (`webview.html`). */
  datatype WebviewContent =
      /**
       * The inspector page (`_getWebviewContent`): toolbar, console panel and
       * a sandboxed iframe loaded from the base64 encoding of `document`.
       */
    | InspectorPage(document: string)
    | ErrorPage(html: string)

  /** What `_disposables` holds, in the order the constructor registers them. */
  datatype Subscription = FileWatcher | SaveListener | PanelDisposeListener

  /** The list the constructor leaves in `_disposables`. */
  const InitialSubscriptions: seq<Subscription> := [FileWatcher, SaveListener, PanelDisposeListener]

  /** What `_update` puts in the webview for one read of the file. */
  function ContentFor(read: ReadResult): WebviewContent {
    match read
    case ReadOk(text) => InspectorPage(WrapWithConsoleCapture(text))
    case ReadFailed(message) => ErrorPage(ErrorContent(message))
  }

  /** `s` in reverse order: the order in which popping empties a list. */
  function Reversed<T>(s: seq<T>): (r: seq<T>)
    ensures |r| == |s|
  {
    if |s| == 0 then [] else Reversed(s[1..]) + [s[0]]
  }

  /** The static slot `PreviewPanel.currentPanel` and the panels made so far. */
  class PreviewRegistry {
    var currentPanel: PreviewPanel?
    var panelsCreated: nat

    constructor ()
      ensures currentPanel == null && panelsCreated == 0
    {
      currentPanel := null;
      panelsCreated := 0;
    }

    /**
     * `PreviewPanel.createOrShow(fileUri)`: with a live panel, only reveal it
     * (even when `fileUri` names another file); otherwise create a panel for
     * `fileUri`, render the first read of the file in it, and store it.
     */
    method CreateOrShow(fileUri: string, read: ReadResult)
      modifies this, currentPanel
      ensures old(currentPanel) != null ==>
        && currentPanel == old(currentPanel)
        && panelsCreated == old(panelsCreated)
        && currentPanel.revealCount == old(currentPanel.revealCount) + 1
        && currentPanel.fileUri == old(currentPanel.fileUri)
        && currentPanel.content == old(currentPanel.content)
        && currentPanel.disposables == old(currentPanel.disposables)
        && currentPanel.disposedLog == old(currentPanel.disposedLog)
        && currentPanel.panelDisposed == old(currentPanel.panelDisposed)
      ensures old(currentPanel) == null ==>
        && currentPanel != null && fresh(currentPanel)
        && panelsCreated == old(panelsCreated) + 1
        && currentPanel.fileUri == fileUri
        && currentPanel.content == ContentFor(read)
        && currentPanel.disposables == InitialSubscriptions
        && currentPanel.disposedLog == []
        && !currentPanel.panelDisposed
        && currentPanel.revealCount == 0
    {
      if currentPanel != null {
        currentPanel.Reveal();
        return;
      }
      currentPanel := new PreviewPanel(fileUri, read);
      panelsCreated := panelsCreated + 1;
    }
  }

  class PreviewPanel {
    /** The previewed file (`_fileUri.fsPath`). */
    const fileUri: string
    /** `_panel.webview.html`. */
    var content: WebviewContent
    /** `_disposables`. */
    var disposables: seq<Subscription>
    /** The subscriptions disposed so far, in the order they were disposed. */
    var disposedLog: seq<Subscription>
    /** Whether `_panel.dispose()` has been called. */
    var panelDisposed: bool
    /** How many times `_panel.reveal` has been called. */
    var revealCount: nat

    /**
     * The private constructor: render the file (`_update`), start watching it
     * and listening for saves (`_setupWatcher`), then listen for the panel
     * being closed (`onDidDispose`).
     */
    constructor (fileUri: string, read: ReadResult)
      ensures this.fileUri == fileUri
      ensures content == ContentFor(read)
      ensures disposables == InitialSubscriptions && disposedLog == []
      ensures !panelDisposed && revealCount == 0
    {
      this.fileUri := fileUri;
      content := ContentFor(read);
      disposables := [FileWatcher, SaveListener, PanelDisposeListener];
      disposedLog := [];
      panelDisposed := false;
      revealCount := 0;
    }

    /** `_panel.reveal(column)`. */
    method Reveal()
      modifies this`revealCount
      ensures revealCount == old(revealCount) + 1
    {
      revealCount := revealCount + 1;
    }

    /**
     * `_update()`: the wrapped document when the read succeeds, the error
     * page carrying the failure's message when it does not.
     */
    method Update(read: ReadResult)
      modifies this`content
      ensures read.ReadOk? ==> content == InspectorPage(WrapWithConsoleCapture(read.text))
      ensures read.ReadFailed? ==> content == ErrorPage(ErrorContent(read.message))
    {
      match read {
        case ReadOk(text) =>
          content := InspectorPage(WrapWithConsoleCapture(text));
        case ReadFailed(message) =>
          content := ErrorPage(ErrorContent(message));
      }
    }

    /** The file watcher's `onDidChange` listener: re-render unconditionally. */
    method OnDidChange(read: ReadResult)
      modifies this`content
      ensures content == ContentFor(read)
    {
      Update(read);
    }

    /**
     * The `onDidSaveTextDocument` listener: re-render only when the saved
     * document is the previewed file (equal `fsPath`).
     */
    method OnDidSaveTextDocument(savedFsPath: string, read: ReadResult)
      modifies this`content
      ensures savedFsPath == fileUri ==> content == ContentFor(read)
      ensures savedFsPath != fileUri ==> content == old(content)
    {
      if savedFsPath == fileUri {
        Update(read);
      }
    }

    /**
     * `dispose()`: empty the slot (whichever panel it holds), dispose the
     * panel, then pop and dispose every subscription until none is left, so
     * they are disposed in reverse order of registration. Disposing again
     * finds the list empty and disposes nothing more.
     */
    method Dispose(registry: PreviewRegistry)
      modifies this, registry
      ensures registry.currentPanel == null && registry.panelsCreated == old(registry.panelsCreated)
      ensures panelDisposed
      ensures disposables == []
      ensures disposedLog == old(disposedLog) + Reversed(old(disposables))
      ensures old(disposables) == [] ==> disposedLog == old(disposedLog)
      ensures content == old(content) && revealCount == old(revealCount)
    {
      registry.currentPanel := null;
      panelDisposed := true;
      while |disposables| > 0
        invariant disposables == old(disposables)[..|disposables|]
        invariant disposedLog == old(disposedLog) + Reversed(old(disposables)[|disposables|..])
        invariant content == old(content) && revealCount == old(revealCount) && panelDisposed
        invariant registry.currentPanel == null && registry.panelsCreated == old(registry.panelsCreated)
        decreases |disposables|
      {
        var n := |disposables|;
        var d := disposables[n - 1];
        ghost var done := old(disposables)[n..];
        assert d == old(disposables)[n - 1];
        assert old(disposables)[n - 1..] == [d] + done;
        disposables := disposables[..n - 1];
        disposedLog := disposedLog + [d];
      }
    }
  }
}
