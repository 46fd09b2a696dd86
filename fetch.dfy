/** requests.get, seen from the scaffolder: the network is an input that
    answers each reachable address with a status code and a body. */
module Fetch {
  import opened Errors

  datatype Response = Response(status: int, body: string)

  /** The answer each reachable address gives; an address outside the map
      makes requests.get raise. */
  type Network = map<Remote, Response>

  const OK: int := 200

  const PublicFiles: string := "https://raw.githubusercontent.com/rafa-carmo/public_files/main/next/"

  /** The URL behind each address, as the scaffolder spells it (the Plop
      file is requested as `plolpfile.js`). */
  function Address(remote: Remote): Url
  {
    match remote
    case DocumentTemplate => PublicFiles + "_document.tsx"
    case DocumentExample =>
      "https://github.com/vercel/next.js/blob/main/examples/with-styled-components/pages/_document.js"
    case AppTemplate => PublicFiles + "_app.ts"
    case GlobalStylesTemplate => PublicFiles + "global.ts"
    case ThemeTemplate => PublicFiles + "theme.ts"
    case StorybookMainTemplate => PublicFiles + "main.js"
    case PlopfileTemplate => PublicFiles + "plolpfile.js"
    case ComponentTemplate => PublicFiles + "plop_templates/Component.tsx.hbs"
    case StoriesTemplate => PublicFiles + "plop_templates/stories.tsx.hbs"
    case StylesTemplate => PublicFiles + "plop_templates/styles.ts.hbs"
  }

  /** The inline fetch of global.ts and theme.ts in add_styled_components:
      the body on status 200, the built-in fallback on any other status. */
  function TextOr(network: Network, remote: Remote, fallback: string): (r: Result<string>)
    ensures r.Err? <==> remote !in network
    ensures r.Err? ==> r.error == ConnectionFailed(remote)
    ensures r.Ok? ==> r.value == (if network[remote].status == OK then network[remote].body else fallback)
    ensures r.Ok? && network[remote].body != fallback ==> (r.value == fallback <==> network[remote].status != OK)
  {
    if remote !in network then Err(ConnectionFailed(remote))
    else if network[remote].status == OK then Ok(network[remote].body)
    else Ok(fallback)
  }
}
