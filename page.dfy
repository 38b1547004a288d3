/**
 * The browser as the scraper sees it through the Selenium WebDriver interface: locators,
 * elements and the values that injected scripts return. The driver itself is not modelled;
 * a page is a snapshot of what each lookup answers.
 */
module Browser {
  import opened Wrappers

  /** Selenium's location strategies used by the scraper. */
  datatype By = ById | ByCssSelector | ByXPath

  datatype Locator = Locator(strategy: By, value: string)

  function Css(selector: string): Locator {
    Locator(ByCssSelector, selector)
  }

  /**
   * An element: the answer of its Text() call, and, for every CSS selector under which it
   * has a descendant, the text of that descendant. A descendant whose Text() fails reads as
   * "", which is what the scraper stores when it discards that error.
   */
  datatype Element = Element(text: Result<string>, children: map<string, string>)

  /**
   * A rendered page: the answer of FindElements for each locator. A locator that is not a key
   * makes the lookup fail; a key mapped to [] is a lookup that finds nothing.
   */
  datatype Page = Page(found: map<Locator, seq<Element>>)

  /** driver.FindElements. */
  function FindElements(page: Page, loc: Locator): Result<seq<Element>> {
    if loc in page.found then Ok(page.found[loc]) else Err("no such element")
  }

  /** driver.FindElement: the first match, or an error when there is none. */
  function FindElement(page: Page, loc: Locator): (r: Result<Element>)
    ensures r.Ok? <==> loc in page.found && |page.found[loc]| > 0
  {
    if loc in page.found && |page.found[loc]| > 0 then Ok(page.found[loc][0])
    else Err("no such element")
  }

  /** The lookup finds at least one element (the test `err == nil && len(elements) > 0`). */
  predicate Matches(page: Page, loc: Locator) {
    loc in page.found && |page.found[loc]| > 0
  }

  /** What driver.ExecuteScript hands back: an int64, or any other JSON value. */
  datatype ScriptValue = Int64(v: int) | NonInteger
}
