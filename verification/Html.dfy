/** The HTML builder. */
module Html {
  function Page(inner: string): string {
    "<html><body>" + inner + "</body></html>"
  }
}
