# BrowserDetails in Dafny

A model of the `BrowserDetails` Rack middleware (sunny/browser_details). For
every request the middleware builds one descriptive line and logs it when it is
non-empty. The line has a browser fragment, `browser [Mobile] version
(platform, os)`, taken from the parsed User-Agent header. It also has a
scripting-status fragment, `JS disabled` or `JS enabled`, taken from the
hidden `utf8` form parameter and the XHR flag. Then the middleware calls the
wrapped application with the same `env` and returns its result.

- `ruby_text.dfy` (module `RubyText`): Ruby's rendering of `nil` as `""` (`Text`)
  and `Array#join` (`Join`), with the lemma about appending to a joined array.
- `browser_details.dfy` (module `BrowserDetails`):
  - the `Agent` and `Request` records;
  - the message, specified by plain concatenation (`BrowserFragment`,
    `ScriptingStatus`, `Describe`);
  - `Message`, which builds the line step by step with array accumulators,
    as `BrowserDetails.message` does, and is proved equal to `Describe`;
  - the properties of the message;
  - the class `Middleware`, whose `Call` appends to a log trace and delegates.

Presence is Ruby truthiness: a header or parameter is present when it is not
`nil`, so an empty User-Agent still yields a browser fragment and an empty
`utf8` value still yields `JS enabled`. This follows the code
(lib/browser_details.rb:73, 85 and 89).

## Model

| member | source | states |
|---|---|---|
| `BrowserDetails.AgentDetailsJoin` | lib/browser_details.rb:76-81 | the tokens browser, `Mobile` (only when mobile), version and `(platform, os)`, joined by single spaces, spell the browser fragment |
| `BrowserDetails.Message` | lib/browser_details.rb:69-94 | the fragment-array construction yields exactly the specified line: browser fragment if a header is present, then `, ` and the status fragment if there is one; it depends only on the header, the `utf8` parameter and the XHR flag |
| `BrowserDetails.ScriptingStatusPriority` | lib/browser_details.rb:84-91 | `JS disabled` iff `utf8` is exactly the checkmark, whatever the XHR flag; `JS enabled` iff `utf8` is present and not the checkmark, or absent with XHR; no fragment iff neither |
| `BrowserDetails.EmptyMessageIff` | lib/browser_details.rb:69-94 | the message is empty iff there is no User-Agent header, no `utf8` parameter and no XHR |
| `BrowserDetails.BrowserFragmentLeads` | lib/browser_details.rb:70-93 | with a header, the message is the browser fragment followed by `, ` and the status fragment when there is one, and by nothing otherwise |
| `BrowserDetails.StatusFragmentTrails` | lib/browser_details.rb:84-93 | a status fragment, when there is one, ends the message |
| `BrowserDetails.MobileFollowsBrowser` | lib/browser_details.rb:76-79 | a mobile agent's fragment is the desktop fragment with ` Mobile` inserted right after the browser name, before the version |
| `BrowserDetails.MessageIsRepeatable` | lib/browser_details.rb:69-94 | building the message twice for the same request gives the same line |
| `RubyText.JoinSnoc` | lib/browser_details.rb:81 | joining a non-empty array with one more element adds the separator and that element at the end |
| `BrowserDetails.Middleware.constructor` | lib/browser_details.rb:39-41 | a new middleware keeps the wrapped app and starts with an empty log |
| `BrowserDetails.Middleware.Call` | lib/browser_details.rb:50-61 | returns `app(env)` for the same `env`; the log grows by exactly the message iff the message is non-empty, which happens iff a header, a `utf8` parameter or XHR is present |

## Left out

- Logger selection (lib/browser_details.rb:11-33): whether Hatchet, Rails or `env['rack.logger']` receives the line depends on which frameworks are loaded. The model keeps one trace, `log`, of the lines handed to `log_message`; a missing `rack.logger`, which drops the line, is not modelled.
- `UserAgent.parse` is a foreign library. It is the `parse` parameter, an arbitrary total function to the five fields. An exception raised inside it is not modelled.
- `Rack::Request.new(env)`, `request.user_agent`, `request['utf8']` and `request.xhr?` are framework code. The `view` function maps `env` to a `Request` record holding the header, the parameter map and the XHR flag. A parameter sent without a value (`?utf8`) is nil in that map, as Rack stores it.
- Middleware.Call: does not model that reading `request['utf8']` (lib/browser_details.rb:85) makes Rack parse the query string and form body. A malformed one (such as `utf8=%`) raises `InvalidParameterError`, so `call` neither logs nor reaches `@app.call(env)`. The model's `view` is total, so `Call` always returns `app(env)`. Rack also stores the parsed parameter hashes back into `env` (`rack.request.query_hash`, `rack.request.form_hash` and others). So the app receives the same `env` object, but with these entries added. The model treats `env` as an unchanged value.
- The wrapped application is the function `app`. Any exception it raises, and so propagates, is not modelled.
- Strings are sequences of Unicode characters. Ruby's byte encodings are not modelled, so a `utf8` value whose bytes spell the checkmark in a non-UTF-8 encoding is not distinguished.
- The gem's version file and the Railtie require (lib/browser_details.rb:3, 98) are packaging.
