/**
 * The provider-composition combinator `withBasicProviders` and the root
 * component `MyApp` (src/pages/_app.tsx). A rendered element tree is reduced
 * to its shape: which provider wraps which, down to the one component that
 * receives the properties.
 */
module ProviderComposer {

  /** The context providers, as opaque identifiers. */
  datatype ProviderId = PolarisProvider | AppBridgeProvider | GraphQLProvider | AppContextProvider
                      | OtherProvider(name: string)

  /** The components that can sit at the bottom of a provider tree. */
  datatype ComponentId = TrpcApp | Page(name: string)

  /**
   * A rendered tree: a provider element with its single child, or the wrapped
   * component with the properties it was rendered with. A provider element
   * has no slot for properties: it is given only its child.
   */
  datatype Node<Props> = Target(component: ComponentId, props: Props)
                       | Wrap(provider: ProviderId, child: Node<Props>)

  /** The structural right fold: `providers[0]` outermost, `inner` innermost. */
  function Nest<Props>(providers: seq<ProviderId>, inner: Node<Props>): Node<Props>
  {
    if |providers| == 0 then inner else Wrap(providers[0], Nest(providers[1..], inner))
  }

  /** Adding a provider at the end of the list wraps it directly around the inner tree. */
  lemma {:induction false} NestSnoc<Props>(providers: seq<ProviderId>, p: ProviderId, inner: Node<Props>)
    ensures Nest(providers + [p], inner) == Nest(providers, Wrap(p, inner))
    decreases |providers|
  {
    if |providers| > 0 {
      assert (providers + [p])[1..] == providers[1..] + [p];
      NestSnoc(providers[1..], p, inner);
    }
  }

  /**
   * `providers.reduceRight((acc, Provider) => <Provider>{acc}</Provider>, acc)`:
   * the callback sees the last provider first, so the last one ends up
   * innermost and the first one outermost.
   */
  function ReduceRight<Props>(providers: seq<ProviderId>, acc: Node<Props>): (r: Node<Props>)
    ensures r == Nest(providers, acc)
    decreases |providers|
  {
    if |providers| == 0 then acc
    else
      var last := |providers| - 1;
      NestSnoc(providers[..last], providers[last], acc);
      assert providers[..last] + [providers[last]] == providers;
      ReduceRight(providers[..last], Wrap(providers[last], acc))
  }

  /**
   * `withBasicProviders(...providers)(WrappedComponent)(props)`, the three
   * curried applications taken together.
   */
  function WithBasicProviders<Props>(providers: seq<ProviderId>, wrapped: ComponentId, props: Props): Node<Props>
  {
    ReduceRight(providers, Target(wrapped, props))
  }

  // ---------------------------------------------------------------------------
  // Reading a tree back

  /** The providers met on the way down, outermost first. */
  function Providers<Props>(n: Node<Props>): seq<ProviderId>
  {
    match n
    case Target(_, _) => []
    case Wrap(p, child) => [p] + Providers(child)
  }

  /** The innermost element: the component that receives the properties. */
  function Innermost<Props>(n: Node<Props>): Node<Props>
  {
    match n
    case Target(_, _) => n
    case Wrap(_, child) => Innermost(child)
  }

  /** The number of provider elements around the innermost component. */
  function Depth<Props>(n: Node<Props>): nat
  {
    match n
    case Target(_, _) => 0
    case Wrap(_, child) => 1 + Depth(child)
  }

  /** The subtree `k` levels below the root. */
  function Layer<Props>(n: Node<Props>, k: nat): Node<Props>
  {
    if k == 0 then n
    else match n
      case Target(_, _) => n
      case Wrap(_, child) => Layer(child, k - 1)
  }

  // ---------------------------------------------------------------------------
  // Properties of the combinator

  /**
   * Composition and reading back are inverse: the composed tree lists the
   * providers in the given order and ends in the wrapped component with the
   * properties unchanged, which is the level reached after one step per
   * provider; its depth is the number of providers.
   */
  lemma {:induction false} ComposeReadBack<Props>(providers: seq<ProviderId>, wrapped: ComponentId, props: Props)
    ensures Providers(WithBasicProviders(providers, wrapped, props)) == providers
    ensures Innermost(WithBasicProviders(providers, wrapped, props)) == Target(wrapped, props)
    ensures Depth(WithBasicProviders(providers, wrapped, props)) == |providers|
    ensures Layer(WithBasicProviders(providers, wrapped, props), |providers|) == Target(wrapped, props)
  {
    NestReadBack(providers, Target(wrapped, props));
    NestBottom(providers, Target(wrapped, props));
  }

  lemma {:induction false} NestReadBack<Props>(providers: seq<ProviderId>, inner: Node<Props>)
    requires inner.Target?
    ensures Providers(Nest(providers, inner)) == providers
    ensures Innermost(Nest(providers, inner)) == inner
    ensures Depth(Nest(providers, inner)) == |providers|
    decreases |providers|
  {
    if |providers| > 0 {
      NestReadBack(providers[1..], inner);
    }
  }

  /** Every tree is the composition of its own providers around its innermost component. */
  lemma {:induction false} EveryTreeIsAComposition<Props>(n: Node<Props>)
    ensures Innermost(n).Target?
    ensures n == WithBasicProviders(Providers(n), Innermost(n).component, Innermost(n).props)
  {
    match n
    case Target(_, _) =>
    case Wrap(p, child) =>
      EveryTreeIsAComposition(child);
      assert ([p] + Providers(child))[1..] == Providers(child);
  }

  /**
   * Nesting follows list order one level at a time: level `k` is provider
   * `providers[k]` directly wrapping level `k + 1`. Together with the last
   * level of `ComposeReadBack`, the properties are held only by the wrapped
   * component, which no provider sees.
   */
  lemma {:induction false} EachProviderWrapsTheNext<Props>(providers: seq<ProviderId>, wrapped: ComponentId, props: Props, k: nat)
    requires k < |providers|
    ensures Layer(WithBasicProviders(providers, wrapped, props), k)
         == Wrap(providers[k], Layer(WithBasicProviders(providers, wrapped, props), k + 1))
  {
    NestLayer(providers, Target(wrapped, props), k);
  }

  lemma {:induction false} NestLayer<Props>(providers: seq<ProviderId>, inner: Node<Props>, k: nat)
    requires k < |providers|
    ensures Layer(Nest(providers, inner), k) == Wrap(providers[k], Layer(Nest(providers, inner), k + 1))
    decreases k
  {
    if k > 0 {
      NestLayer(providers[1..], inner, k - 1);
    }
  }

  lemma {:induction false} NestBottom<Props>(providers: seq<ProviderId>, inner: Node<Props>)
    ensures Layer(Nest(providers, inner), |providers|) == inner
    decreases |providers|
  {
    if |providers| > 0 {
      NestBottom(providers[1..], inner);
    }
  }

  /** An empty provider list renders the wrapped component alone. */
  lemma NoProvidersIsIdentity<Props>(wrapped: ComponentId, props: Props)
    ensures WithBasicProviders([], wrapped, props) == Target(wrapped, props)
  {
  }

  // ---------------------------------------------------------------------------
  // The concrete trees of the application

  /** The providers of the default export, outermost first. */
  const BasicProviders: seq<ProviderId> := [PolarisProvider, AppBridgeProvider, GraphQLProvider]

  /** The default export: the three basic providers around the tRPC-wrapped `MyApp`. */
  function DefaultApp<Props>(props: Props): Node<Props>
  {
    WithBasicProviders(BasicProviders, TrpcApp, props)
  }

  /** Polaris is outermost, then App Bridge, then GraphQL, then the tRPC-wrapped app. */
  lemma DefaultAppTree<Props>(props: Props)
    ensures DefaultApp(props)
         == Wrap(PolarisProvider, Wrap(AppBridgeProvider, Wrap(GraphQLProvider, Target(TrpcApp, props))))
  {
    var inner: Node<Props> := Target(TrpcApp, props);
    assert BasicProviders[1..] == [AppBridgeProvider, GraphQLProvider];
    assert BasicProviders[1..][1..] == [GraphQLProvider];
    assert Nest([GraphQLProvider], inner) == Wrap(GraphQLProvider, inner);
    assert Nest([AppBridgeProvider, GraphQLProvider], inner) == Wrap(AppBridgeProvider, Nest([GraphQLProvider], inner));
    assert DefaultApp(props) == Nest(BasicProviders, inner);
  }

  /** `MyApp`: the page component, given its page properties, inside the app context provider. */
  function MyApp<Props>(component: ComponentId, pageProps: Props): Node<Props>
  {
    Wrap(AppContextProvider, Target(component, pageProps))
  }

  /** `MyApp` is the composition of the single provider `AppContextProvider`. */
  lemma MyAppIsSingleProviderComposition<Props>(component: ComponentId, pageProps: Props)
    ensures MyApp(component, pageProps) == WithBasicProviders([AppContextProvider], component, pageProps)
    ensures Providers(MyApp(component, pageProps)) == [AppContextProvider]
  {
  }
}
