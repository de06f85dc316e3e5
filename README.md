# Root component of a Shopify embedded Next.js app, modelled in Dafny

This project models the decision logic in the root component
`src/pages/_app.tsx` of the Shopify Node app starter. The rest of that file
is framework wiring, which is not modelled. Four pieces are modelled:

- **`responseMeta`** (`ssr_response.dfy`, module `SsrResponse`). During server-side rendering
  it picks the HTTP status of the response. A truthy status on the request
  context is returned verbatim. Otherwise the first collected RPC client
  error decides: its `data?.httpStatus`, or 500 when that is missing. With
  neither, the metadata is empty (`{}`).
- **`withBasicProviders`** (`provider_composer.dfy`, module `ProviderComposer`). It nests
  context providers around a wrapped component with `reduceRight`, so the
  first-listed provider is outermost and only the wrapped component receives
  the properties. The module also models the default export (Polaris ⊃ App
  Bridge ⊃ GraphQL ⊃ the tRPC-wrapped app) and `MyApp` (the app context
  provider around the page).
- **`getBaseUrl`** and the batched endpoint `${getBaseUrl()}/api/trpc`
  (`trpc_config.dfy`, module `TrpcConfig`).
- The **`enabled` policy of the logger link** (`trpc_config.dfy`).

All four are pure functions. The ambient inputs are explicit parameters:
whether a `window` exists, `VERCEL_URL`, `HOST` and `NODE_ENV`.
JavaScript truthiness is written out:

- a status of `0` or `undefined` counts as unset;
- an empty or undefined `VERCEL_URL` counts as unset;
- `??` replaces only a missing `httpStatus`, so a declared `0` is kept.

`reduceRight` is modelled literally: it takes the last provider first. It is
proved equal to a structural right fold (`Nest`). The fold is proved inverse
to reading the tree back, which gives the providers outermost-first and then
the innermost component.

Two behaviours of the code are worth stating plainly:

- The code tests the status for truthiness, so an explicit status of `0`
  is treated as unset.
- When `HOST` is undefined on the server, the template literal produces the
  text `"undefined/api/trpc"`, and `TrpcConfig.Interpolate` models exactly
  that.

## Model

| member | source | states |
|---|---|---|
| `SsrResponse.ResponseMeta` | src/pages/_app.tsx:91-110 | the `responseMeta` callback itself; it has no contract of its own, and its properties are stated by `ExplicitStatusWins`, `ZeroStatusIsUnset`, `FirstErrorWins`, `DeclaredStatusPropagates`, `MissingStatusDefaultsTo500`, `EmptyExactlyWhenNothingToReport` and `StatusOrigin` |
| `SsrResponse.ExplicitStatusWins` | src/pages/_app.tsx:94-98 | a truthy `ctx.status` is returned verbatim, and the result is the same for every error list |
| `SsrResponse.ZeroStatusIsUnset` | src/pages/_app.tsx:94 | a status of 0 is falsy and gives the same metadata as an undefined status, for any errors |
| `SsrResponse.FirstErrorWins` | src/pages/_app.tsx:101-106 | without an explicit status, a non-empty error list yields the first error's status, and errors after the first never change the result |
| `SsrResponse.DeclaredStatusPropagates` | src/pages/_app.tsx:105 | a status declared by the first error is propagated as it is, 0 included |
| `SsrResponse.MissingStatusDefaultsTo500` | src/pages/_app.tsx:105 | a first error with no `data`, or with no `httpStatus`, yields status 500 |
| `SsrResponse.EmptyExactlyWhenNothingToReport` | src/pages/_app.tsx:94-109 | the metadata is `{}` if and only if the status is unset and no error was collected; otherwise it carries a status |
| `SsrResponse.StatusOrigin` | src/pages/_app.tsx:91-110 | every returned status is the explicit status, the first error's declared status or 500; a returned 0 can only be declared by the first error |
| `SsrResponse.ExampleExplicitBeatsError` | src/pages/_app.tsx:94-98 | explicit 200 with an error declaring 404 gives 200 |
| `SsrResponse.ExampleFirstOf404And500` | src/pages/_app.tsx:101-106 | errors [404, 500] with no explicit status give 404 |
| `SsrResponse.ExampleDefaultAndEmpty` | src/pages/_app.tsx:101-109 | one error with an undefined status gives 500; no errors give `{}` |
| `ProviderComposer.WithBasicProviders` | src/pages/_app.tsx:37-43 | the combinator itself; it has no contract of its own, and its properties are stated by `ReduceRight`, `ComposeReadBack`, `EveryTreeIsAComposition`, `EachProviderWrapsTheNext` and `NoProvidersIsIdentity` |
| `ProviderComposer.MyApp` | src/pages/_app.tsx:16-22 | the root component's tree; it has no contract of its own, and `MyAppIsSingleProviderComposition` states its shape |
| `ProviderComposer.DefaultApp` | src/pages/_app.tsx:45-49 | the default export's tree; it has no contract of its own, and `DefaultAppTree` states its shape |
| `ProviderComposer.ReduceRight` | src/pages/_app.tsx:41-43 | `reduceRight`, which visits the last provider first, builds the same tree as the right fold that puts `providers[0]` outermost |
| `ProviderComposer.ComposeReadBack` | src/pages/_app.tsx:37-43 | the composed tree lists exactly the given providers in order, ends in the wrapped component with the props unchanged (as a tree shape), which is the level reached after one step per provider, and has depth equal to the number of providers |
| `ProviderComposer.EveryTreeIsAComposition` | src/pages/_app.tsx:37-43 | conversely, every tree is the composition of its own providers around its innermost component |
| `ProviderComposer.EachProviderWrapsTheNext` | src/pages/_app.tsx:40-43 | level k of the composed tree is `providers[k]` directly wrapping level k+1, so providers hold only their child and never the props |
| `ProviderComposer.NoProvidersIsIdentity` | src/pages/_app.tsx:41-43 | an empty provider list renders only the wrapped component |
| `ProviderComposer.DefaultAppTree` | src/pages/_app.tsx:45-49 | the default export is Polaris ⊃ App Bridge ⊃ GraphQL ⊃ the tRPC-wrapped app |
| `ProviderComposer.MyAppIsSingleProviderComposition` | src/pages/_app.tsx:16-22 | `MyApp` is the composition of the single app context provider around the page with its page props |
| `TrpcConfig.GetBaseUrl` | src/pages/_app.tsx:24-35 | `getBaseUrl` itself; it has no contract of its own, and its properties are stated by `BrowserUsesRelativeBase`, `ServerPrefersVercelUrl`, `ServerFallsBackToHost` and `ExampleBaseUrls` |
| `TrpcConfig.Interpolate` | src/pages/_app.tsx:71 | how the template literal prints a possibly undefined base; it has no contract of its own, and `TrpcUrl`, `TrpcUrlDeterminesBase` and `ServerFallsBackToHost` state its effect on the endpoint |
| `TrpcConfig.TrpcUrl` | src/pages/_app.tsx:71 | the endpoint ends in `/api/trpc`, and what precedes that suffix is the base as a template literal prints it |
| `TrpcConfig.TrpcUrlDeterminesBase` | src/pages/_app.tsx:71 | two bases give the same endpoint if and only if they print as the same text |
| `TrpcConfig.BrowserUsesRelativeBase` | src/pages/_app.tsx:25-27 | in a browser the base is `""` whatever the environment, so the endpoint is `/api/trpc` |
| `TrpcConfig.ServerPrefersVercelUrl` | src/pages/_app.tsx:29-31 | on the server a non-empty `VERCEL_URL` gives `https://` + `VERCEL_URL`, ignoring `HOST` |
| `TrpcConfig.ServerFallsBackToHost` | src/pages/_app.tsx:33-34 | on the server with `VERCEL_URL` undefined or empty, the base is `HOST` verbatim with no scheme, and an undefined `HOST` yields `undefined/api/trpc` |
| `TrpcConfig.ExampleBaseUrls` | src/pages/_app.tsx:24-35 | the browser, Vercel, tunnel-host and empty-`VERCEL_URL` scenarios with concrete host names |
| `TrpcConfig.LoggingEnabled` | src/pages/_app.tsx:66-68 | the logger link's `enabled` callback; it has no contract of its own, and its properties are stated by `DevelopmentLogsEverything`, `OtherwiseOnlyFailedResponses` and `ExampleModes` |
| `TrpcConfig.DevelopmentLogsEverything` | src/pages/_app.tsx:66-67 | with `NODE_ENV` equal to `development`, every call is logged |
| `TrpcConfig.OtherwiseOnlyFailedResponses` | src/pages/_app.tsx:66-68 | outside development, a call is logged if and only if it is a response whose result is an `Error`; outgoing calls never are |
| `TrpcConfig.ExampleModes` | src/pages/_app.tsx:66-68 | `production`, `Development` and an unset `NODE_ENV` are not development; a failed response is still logged |

## Left out

- React rendering and JSX: a rendered element is reduced to the shape of the tree (`ProviderComposer.Node`). React's element creation strips `key` and `ref` from the spread `{...props}`; the model does not, so "props unchanged" is a statement about where the props go in the tree, not about that filtering. The three curried applications of `withBasicProviders` are taken as one function of three arguments.
- The internals of `withTRPC` (its own providers and query client, the `ssr: true` flag) are not modelled. The tRPC-wrapped `MyApp` is the opaque component `TrpcApp`.
- The providers `PolarisProvider`, `AppBridgeProvider`, `GraphQLProvider` and `AppContextProvider` are foreign components, so they are opaque identifiers.
- `useAuthenticatedFetch`, the `httpBatchLink` transport, the `superjson` transformer and what the logger prints are I/O or library code. Only the endpoint URL and the `enabled` predicate are modelled.
- `typeof window` and `process.env` are parameters of the model, not ambient state.
- Property values are a type parameter: the model shows only where they are delivered, not what they contain.
- `SsrResponse.SsrContext` holds an integer status, so the falsy `NaN` cannot be written in the model.
- `SsrResponse.ClientError`: each collected error is an object, so `if (error)` is false only when the list is empty. A `null` entry in `clientErrors` is not modelled.
- Concurrency between server requests is not modelled. Every function here is evaluated once per call and keeps no state.
